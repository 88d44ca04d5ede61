/** The retarget lookup computes what folding the rule over the whole chain computes. */
module Retarget {
  import opened Collections
  import Ledger
  import opened Blocks

  function WindowStart(w: nat): int { w * VDF_ADJUST_INTERVAL }

  /** The gaps window w's rule looks at: those of the window before it. */
  function WindowDeltas(chain: seq<Block>, w: nat): seq<real>
    requires 1 <= w && WindowStart(w) <= |chain|
  {
    Deltas(chain, Max(WindowStart(w - 1), 1), WindowStart(w))
  }

  /** The iteration count of window w, derived from genesis by applying the rule to every earlier window. */
  function WindowIterations(chain: seq<Block>, w: nat): int
    requires WindowStart(w) <= |chain|
  {
    if w == 0 then VDF_ITERATIONS
    else Bumped(WindowIterations(chain, w - 1), WindowDeltas(chain, w))
  }

  lemma {:induction false} WindowIgnoresLater(chain: seq<Block>, k: nat, w: nat)
    requires WindowStart(w) <= k <= |chain|
    ensures WindowIterations(chain[..k], w) == WindowIterations(chain, w)
  {
    hide Bumped, WindowDeltas;
    if w > 0 {
      WindowIgnoresLater(chain, k, w - 1);
      DeltasIgnoreLater(chain, k, w);
    }
  }

  lemma DeltasIgnoreLater(chain: seq<Block>, k: nat, w: nat)
    requires 1 <= w && WindowStart(w) <= k <= |chain|
    ensures WindowDeltas(chain[..k], w) == WindowDeltas(chain, w)
  {
  }

  lemma BumpNeverLowers(prior: int, deltas: seq<real>)
    requires prior >= 0
    ensures Bumped(prior, deltas) >= prior
  {
  }

  lemma {:induction false} IterationsNeverDrop(chain: seq<Block>, v: nat, w: nat)
    requires v <= w && WindowStart(w) <= |chain|
    ensures VDF_ITERATIONS <= WindowIterations(chain, v) <= WindowIterations(chain, w)
    decreases w
  {
    hide Bumped, WindowDeltas;
    if w > 0 {
      if v < w {
        IterationsNeverDrop(chain, v, w - 1);
      } else {
        IterationsNeverDrop(chain, w - 1, w - 1);
      }
      BumpNeverLowers(WindowIterations(chain, w - 1), WindowDeltas(chain, w));
    }
  }

  /** Every block of a valid chain carries its window's iteration count. */
  lemma {:induction false} BlocksCarryWindow(chain: seq<Block>, h: nat)
    requires ValidChain(chain) && h < |chain|
    ensures chain[h].body.iterations == WindowIterations(chain, h / VDF_ADJUST_INTERVAL)
    decreases |chain|, h
  {
    if h == 0 {
      return;
    }
    BlockWasChecked(chain, h);
    LookupIsFold(chain[..h]);
    WindowIgnoresLater(chain, h, h / VDF_ADJUST_INTERVAL);
  }

  lemma BlockWasChecked(chain: seq<Block>, h: nat)
    requires ValidChain(chain) && 1 <= h < |chain|
    ensures ValidChain(chain[..h]) && chain[h].body.iterations == GetVdfIterations(chain[..h])
  {
    hide Ledger.ValidTxs, GetVdfIterations, ReplayLedger, ReplayWork, ValidChain;
    ValidAt(chain, h);
    assert BuilderChecks(chain[h], chain[..h]);
  }

  /** On every valid chain the lookup equals the fold. */
  lemma {:induction false} LookupIsFold(chain: seq<Block>)
    requires ValidChain(chain)
    ensures GetVdfIterations(chain) == WindowIterations(chain, |chain| / VDF_ADJUST_INTERVAL)
    decreases |chain|, |chain|
  {
    var w := |chain| / VDF_ADJUST_INTERVAL;
    LookupReads(chain, w);
    if w > 0 {
      var boundary := WindowStart(w);
      if |chain| > boundary {
        BlocksCarryWindow(chain, boundary);
      } else {
        BlocksCarryWindow(chain, WindowStart(w - 1));
      }
    }
    hide ValidChain, GetVdfIterations, Bumped, WindowDeltas;
  }

  /** Which block the lookup reads its number from. */
  lemma LookupReads(chain: seq<Block>, w: nat)
    requires w == |chain| / VDF_ADJUST_INTERVAL
    ensures w == 0 ==> GetVdfIterations(chain) == VDF_ITERATIONS
    ensures w > 0 && |chain| > WindowStart(w) ==> GetVdfIterations(chain) == chain[WindowStart(w)].body.iterations
    ensures w > 0 && |chain| == WindowStart(w) ==>
              GetVdfIterations(chain) == Bumped(chain[WindowStart(w - 1)].body.iterations, WindowDeltas(chain, w))
    ensures |chain| >= WindowStart(w) && WindowStart(w) / VDF_ADJUST_INTERVAL == w
    ensures w > 0 ==> WindowStart(w - 1) / VDF_ADJUST_INTERVAL == w - 1
  {
    hide Bumped;
  }

  /** The required count is the same throughout a window and never falls as the chain grows. */
  lemma IterationsOnlyRise(chain: seq<Block>, g: nat, h: nat)
    requires ValidChain(chain) && g <= h < |chain|
    ensures chain[g].body.iterations <= chain[h].body.iterations
    ensures g / VDF_ADJUST_INTERVAL == h / VDF_ADJUST_INTERVAL ==> chain[g].body.iterations == chain[h].body.iterations
    ensures chain[h].body.iterations >= VDF_ITERATIONS
  {
    BlocksCarryWindow(chain, g);
    BlocksCarryWindow(chain, h);
    IterationsNeverDrop(chain, g / VDF_ADJUST_INTERVAL, h / VDF_ADJUST_INTERVAL);
  }

  // ----- What the median decides -------------------------------------------------------------------

  function CountBelow(s: seq<real>, m: real): nat {
    if s == [] then 0 else (if s[0] < m then 1 else 0) + CountBelow(s[1..], m)
  }

  predicate Ascending(s: seq<real>) { forall i, j :: 0 <= i < j < |s| ==> s[i] <= s[j] }

  lemma {:induction false} InsertKeeps(x: real, s: seq<real>, m: real)
    requires Ascending(s)
    ensures Ascending(Insert(x, s)) && |Insert(x, s)| == |s| + 1
    ensures CountBelow(Insert(x, s), m) == CountBelow(s, m) + if x < m then 1 else 0
    ensures forall y :: y in Insert(x, s) ==> y == x || y in s
  {
    if s != [] && x > s[0] {
      InsertKeeps(x, s[1..], m);
      var r := Insert(x, s[1..]);
      assert forall y :: y in s[1..] ==> s[0] <= y;
      assert Insert(x, s) == [s[0]] + r;
      assert ([s[0]] + r)[1..] == r;
      hide Insert;
    } else {
      assert ([x] + s)[1..] == s;
    }
  }

  lemma {:induction false} SortedKeeps(s: seq<real>, m: real)
    ensures Ascending(Sorted(s)) && |Sorted(s)| == |s| && CountBelow(Sorted(s), m) == CountBelow(s, m)
  {
    if s != [] {
      SortedKeeps(s[1..], m);
      InsertKeeps(s[0], Sorted(s[1..]), m);
    }
  }

  lemma {:induction false} CountInAscending(s: seq<real>, m: real, k: nat)
    requires Ascending(s) && k < |s|
    ensures s[k] < m <==> CountBelow(s, m) > k
  {
    if k > 0 {
      assert forall i :: 0 <= i < |s[1..]| ==> s[1..][i] == s[i + 1];
      CountInAscending(s[1..], m, k - 1);
      assert s[0] <= s[k];
    } else if s[0] >= m {
      NoneBelow(s, m);
    }
  }

  lemma {:induction false} NoneBelow(s: seq<real>, m: real)
    requires forall i :: 0 <= i < |s| ==> s[i] >= m
    ensures CountBelow(s, m) == 0
  {
    if s != [] {
      NoneBelow(s[1..], m);
    }
  }

  /**
   What raises the count: over an odd window, a strict majority of gaps under the threshold, no more
   and no less; over an even one a strict majority suffices and at least half is required.
   */
  lemma MedianIsMajority(s: seq<real>, m: real)
    requires s != []
    ensures |s| % 2 == 1 ==> (Median(s) < m <==> 2 * CountBelow(s, m) > |s|)
    ensures 2 * CountBelow(s, m) > |s| ==> Median(s) < m
    ensures Median(s) < m ==> 2 * CountBelow(s, m) >= |s|
  {
    SortedKeeps(s, m);
    var r := Sorted(s);
    CountInAscending(r, m, |s| / 2);
    if |s| % 2 == 0 {
      CountInAscending(r, m, |s| / 2 - 1);
      assert r[|s| / 2 - 1] <= r[|s| / 2];
    }
  }

  /** Over an even window with exactly half the gaps under the threshold, the two in the middle decide: the largest under it and the smallest not under it. */
  lemma MedianSplitsEvenly(s: seq<real>, m: real, below: real, above: real)
    requires s != [] && |s| % 2 == 0 && 2 * CountBelow(s, m) == |s|
    requires below in s && below < m && forall x :: x in s && x < m ==> x <= below
    requires above in s && above >= m && forall x :: x in s && x >= m ==> x >= above
    ensures Median(s) == (below + above) / 2.0
  {
    SortedKeeps(s, m);
    SortedHolds(s);
    var r, k := Sorted(s), |s| / 2;
    CountInAscending(r, m, k);
    CountInAscending(r, m, k - 1);
    assert Median(s) == (r[k - 1] + r[k]) / 2.0;
    hide *;
    MiddleIs(r, m, k, below, above);
  }

  lemma MiddleIs(r: seq<real>, m: real, k: nat, below: real, above: real)
    requires Ascending(r) && 0 < k < |r| && r[k - 1] < m <= r[k]
    requires below in r && below < m && forall x :: x in r && x < m ==> x <= below
    requires above in r && above >= m && forall x :: x in r && x >= m ==> x >= above
    ensures r[k - 1] == below && r[k] == above
  {
    assert r[k - 1] in r && r[k] in r;
    var i :| 0 <= i < |r| && r[i] == below;
    var j :| 0 <= j < |r| && r[j] == above;
  }

  lemma {:induction false} SortedHolds(s: seq<real>)
    ensures forall x :: x in Sorted(s) <==> x in s
  {
    if s != [] {
      SortedHolds(s[1..]);
      InsertHolds(s[0], Sorted(s[1..]));
      assert s == [s[0]] + s[1..];
    }
  }

  lemma {:induction false} InsertHolds(x: real, s: seq<real>)
    ensures forall y :: y in Insert(x, s) <==> y == x || y in s
  {
    if s != [] && x > s[0] {
      InsertHolds(x, s[1..]);
      assert s == [s[0]] + s[1..];
    }
  }

  // ----- What a finished window does to the count --------------------------------------------------------

  function Gap(chain: seq<Block>, h: int): real
    requires 1 <= h < |chain|
  {
    chain[h].body.timestamp - chain[h - 1].body.timestamp
  }

  /** The heights whose block came less than the threshold after the one before it. */
  function FastHeights(chain: seq<Block>, lo: int, hi: int): set<int>
    requires 1 <= lo && hi <= |chain|
  {
    set h | lo <= h < hi && Gap(chain, h) < VDF_ADJUST_MIN_SECONDS
  }

  lemma {:induction false} FastIsCount(chain: seq<Block>, lo: int, hi: int)
    requires 1 <= lo <= hi <= |chain|
    ensures CountBelow(Deltas(chain, lo, hi), VDF_ADJUST_MIN_SECONDS) == |FastHeights(chain, lo, hi)|
    decreases hi - lo
  {
    if lo == hi {
      assert FastHeights(chain, lo, hi) == {};
    } else {
      FastIsCount(chain, lo + 1, hi);
      FirstDelta(chain, lo, hi);
      var rest := FastHeights(chain, lo + 1, hi);
      assert FastHeights(chain, lo, hi) == if Gap(chain, lo) < VDF_ADJUST_MIN_SECONDS then rest + {lo} else rest;
      hide Deltas, Gap;
    }
  }

  lemma FirstDelta(chain: seq<Block>, lo: int, hi: int)
    requires 1 <= lo < hi <= |chain|
    ensures var d := Deltas(chain, lo, hi); d[0] == Gap(chain, lo) && d[1..] == Deltas(chain, lo + 1, hi)
  {
  }

  function FirstGap(w: nat): int
    requires w >= 1
  {
    Max(WindowStart(w - 1), 1)
  }

  function Raised(count: int): int { count * VDF_ADJUST_NUMERATOR / VDF_ADJUST_DENOMINATOR }

  /**
   The count required at the end of a window: 51/50 of the window's own, rounded down, where more than half
   of the window's gaps are under 100 seconds, and the window's own where fewer than half are.
   */
  lemma BoundaryFollowsGaps(chain: seq<Block>, w: nat)
    requires w >= 1 && |chain| == WindowStart(w)
    ensures var own, gaps := chain[WindowStart(w - 1)].body.iterations, WindowStart(w) - FirstGap(w);
            var fast := |FastHeights(chain, FirstGap(w), WindowStart(w))|;
            && (2 * fast > gaps ==> GetVdfIterations(chain) == Raised(own))
            && (2 * fast < gaps ==> GetVdfIterations(chain) == own)
  {
    LookupReads(chain, w);
    FastIsCount(chain, FirstGap(w), WindowStart(w));
    MedianIsMajority(WindowDeltas(chain, w), VDF_ADJUST_MIN_SECONDS);
    hide GetVdfIterations, Deltas, CountBelow, Median, FastHeights;
  }

  /** The slowest of a window's fast gaps, and the fastest of its others. */
  ghost predicate InTheMiddle(chain: seq<Block>, lo: int, hi: int, p: int, q: int)
    requires 1 <= lo && hi <= |chain|
  {
    && lo <= p < hi && lo <= q < hi && Gap(chain, p) < VDF_ADJUST_MIN_SECONDS <= Gap(chain, q)
    && forall h :: lo <= h < hi ==>
         if Gap(chain, h) < VDF_ADJUST_MIN_SECONDS then Gap(chain, h) <= Gap(chain, p) else Gap(chain, h) >= Gap(chain, q)
  }

  /** With exactly half of them under it, the two gaps in the middle decide by their average. */
  lemma BoundaryAtHalf(chain: seq<Block>, w: nat, p: int, q: int)
    requires w >= 1 && |chain| == WindowStart(w) && InTheMiddle(chain, FirstGap(w), WindowStart(w), p, q)
    requires 2 * |FastHeights(chain, FirstGap(w), WindowStart(w))| == WindowStart(w) - FirstGap(w)
    ensures var own := chain[WindowStart(w - 1)].body.iterations;
            GetVdfIterations(chain)
            == if Gap(chain, p) + Gap(chain, q) < 2.0 * VDF_ADJUST_MIN_SECONDS then Raised(own) else own
  {
    LookupReads(chain, w);
    var lo, hi := FirstGap(w), WindowStart(w);
    assert WindowDeltas(chain, w) == Deltas(chain, lo, hi);
    hide GetVdfIterations, Deltas, CountBelow, Median, FastHeights, InTheMiddle, WindowStart, FirstGap;
    HalfMedian(chain, lo, hi, p, q);
  }

  lemma HalfMedian(chain: seq<Block>, lo: int, hi: int, p: int, q: int)
    requires 1 <= lo && hi <= |chain| && InTheMiddle(chain, lo, hi, p, q)
    requires 2 * |FastHeights(chain, lo, hi)| == hi - lo
    ensures Deltas(chain, lo, hi) != [] && Median(Deltas(chain, lo, hi)) == (Gap(chain, p) + Gap(chain, q)) / 2.0
  {
    var d := Deltas(chain, lo, hi);
    FastIsCount(chain, lo, hi);
    assert forall i :: 0 <= i < |d| ==> d[i] == Gap(chain, lo + i);
    assert d[p - lo] == Gap(chain, p) && d[q - lo] == Gap(chain, q);
    hide CountBelow, Median, FastHeights, Deltas;
    MedianSplitsEvenly(d, VDF_ADJUST_MIN_SECONDS, Gap(chain, p), Gap(chain, q));
  }
}
