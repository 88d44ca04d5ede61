/** Which of two chains wins: most proven work, then a majority of per-height draws over the diverged range. */
module ForkChoice {
  import opened Collections
  import Ledger
  import opened Blocks
  import Retarget

  // ----- Keys ------------------------------------------------------------------------------

  predicate Less(a: string, b: string) {
    if a == [] || b == [] then |a| < |b|
    else if a[0] != b[0] then a[0] < b[0]
    else Less(a[1..], b[1..])
  }

  lemma {:induction false} LessIsStrictTotal(a: string, b: string)
    ensures !Less(a, a)
    ensures Less(a, b) ==> !Less(b, a)
    ensures a == b || Less(a, b) || Less(b, a)
  {
    if a != [] {
      LessIsStrictTotal(a[1..], a[1..]);
      if b != [] && a[0] == b[0] {
        LessIsStrictTotal(a[1..], b[1..]);
        assert a == [a[0]] + a[1..] && b == [b[0]] + b[1..];
      }
    }
  }

  lemma {:induction false} LessTransitive(a: string, b: string, c: string)
    requires Less(a, b) && Less(b, c)
    ensures Less(a, c)
  {
    if a != [] && b != [] && c != [] && a[0] == b[0] && b[0] == c[0] {
      LessTransitive(a[1..], b[1..], c[1..]);
    }
  }

  /** One key comes before another where the two first differ, or by ending there. */
  ghost predicate Before(a: string, b: string) {
    exists k :: 0 <= k < |b| && k <= |a| && a[..k] == b[..k] && (k == |a| || a[k] < b[k])
  }

  lemma {:induction false} LessIsBefore(a: string, b: string)
    ensures Less(a, b) <==> Before(a, b)
  {
    if a == [] || b == [] {
      assert Less(a, b) ==> a[..0] == b[..0];
    } else if a[0] != b[0] {
      assert a[..0] == b[..0];
      forall k | 0 < k < |b| && k <= |a|
        ensures a[..k] != b[..k]
      {
        assert a[..k][0] != b[..k][0];
      }
    } else {
      LessIsBefore(a[1..], b[1..]);
      assert forall k :: 0 <= k <= |a[1..]| && k < |b[1..]| ==> a[..k + 1] == [a[0]] + a[1..][..k] && b[..k + 1] == [b[0]] + b[1..][..k];
      if Before(a[1..], b[1..]) {
        var k :| 0 <= k < |b[1..]| && k <= |a[1..]| && a[1..][..k] == b[1..][..k] && (k == |a[1..]| || a[1..][k] < b[1..][k]);
        assert a[..k + 1] == b[..k + 1];
      }
      if Before(a, b) {
        var k :| 0 <= k < |b| && k <= |a| && a[..k] == b[..k] && (k == |a| || a[k] < b[k]);
        assert k > 0;
        assert a[1..][..k - 1] == a[..k][1..] && b[1..][..k - 1] == b[..k][1..];
      }
    }
  }

  // ----- The fork point --------------------------------------------------------------------------

  predicate SameAt(a: seq<Block>, b: seq<Block>, i: int)
    requires 0 <= i < |a| && i < |b|
  {
    a[i].hash == b[i].hash
  }

  /** The linear scan: the first height from `i` on where the chains' hashes differ, or the shorter length. */
  function FirstDifference(a: seq<Block>, b: seq<Block>, i: nat): (d: nat)
    requires i <= |a| && i <= |b|
    ensures i <= d <= Min(|a|, |b|)
    ensures forall j :: i <= j < d ==> SameAt(a, b, j)
    ensures d < |a| && d < |b| ==> !SameAt(a, b, d)
    decreases |a| - i
  {
    if i == |a| || i == |b| then i
    else if a[i].hash == b[i].hash then FirstDifference(a, b, i + 1)
    else i
  }

  /** The fork point is the only height with agreement everywhere below it and none at it. */
  lemma {:induction false} FirstDifferenceIs(a: seq<Block>, b: seq<Block>, i: nat, d: nat)
    requires i <= d <= Min(|a|, |b|) && forall j :: i <= j < d ==> SameAt(a, b, j)
    requires d < |a| && d < |b| ==> !SameAt(a, b, d)
    ensures FirstDifference(a, b, i) == d
    decreases d - i
  {
    if i < d {
      assert SameAt(a, b, i);
      FirstDifferenceIs(a, b, i + 1, d);
    }
  }

  /** The scan the node runs on a remote chain, for any two lists at all. */
  method ScanForFork(a: seq<Block>, b: seq<Block>) returns (d: nat)
    ensures d == FirstDifference(a, b, 0)
  {
    d := 0;
    while d < |a| && d < |b|
      invariant d <= |a| && d <= |b| && FirstDifference(a, b, d) == FirstDifference(a, b, 0)
    {
      if a[d].hash != b[d].hash {
        return;
      }
      d := d + 1;
    }
  }

  /** Each block carries its true hash, and names its parent's unless it claims height 0. */
  ghost predicate Linked(chain: seq<Block>) {
    forall i {:trigger chain[i]} :: 0 <= i < |chain| ==>
      HashChecks(chain[i]) && (i > 0 && chain[i].body.height != 0 ==> chain[i].body.previous == chain[i - 1].hash)
  }

  /** No block past genesis claims height 0. */
  predicate NoLaterZero(chain: seq<Block>) { forall i :: 1 <= i < |chain| ==> chain[i].body.height != 0 }

  lemma ValidIsLinked(chain: seq<Block>)
    requires ValidChain(chain)
    ensures Linked(chain) && NoLaterZero(chain)
  {
    forall i {:trigger chain[i]} | 0 <= i < |chain|
      ensures HashChecks(chain[i]) && (i > 0 ==> chain[i].body.previous == chain[i - 1].hash && chain[i].body.height != 0)
    {
      ValidPrefix(chain, 1);
      if i > 0 {
        LinkedToParent(chain, i);
        HeightIsIndex(chain, i);
      }
    }
  }

  /** Where one of the two claims no later height 0, agreement at one height is agreement, block for block, at every height below it. */
  lemma {:induction false} AgreementReachesDown(a: seq<Block>, b: seq<Block>, i: nat)
    requires Linked(a) && Linked(b) && (NoLaterZero(a) || NoLaterZero(b)) && i < |a| && i < |b| && SameAt(a, b, i)
    ensures forall j :: 0 <= j <= i ==> SameAt(a, b, j) && a[j] == b[j]
  {
    assert a[i].body == b[i].body;
    if i > 0 {
      AgreementReachesDown(a, b, i - 1);
    }
  }

  // ----- The search ------------------------------------------------------------------------------------

  /** The binary search for a height of disagreement between lo and hi, for any two lists at all. */
  function SearchFrom(a: seq<Block>, b: seq<Block>, lo: nat, hi: nat): (d: nat)
    requires lo <= hi <= |a| && hi <= |b|
    ensures lo <= d <= hi
    decreases hi - lo
  {
    if lo == hi then lo
    else
      var mid := (lo + hi) / 2;
      if SameAt(a, b, mid) then SearchFrom(a, b, mid + 1, hi) else SearchFrom(a, b, lo, mid)
  }

  function SearchFork(a: seq<Block>, b: seq<Block>): (d: nat)
    ensures d <= |a| && d <= |b|
  {
    SearchFrom(a, b, 0, Min(|a|, |b|))
  }

  /** The search looks at a height above d and finds agreement there. */
  predicate Misled(a: seq<Block>, b: seq<Block>, lo: nat, hi: nat, d: nat)
    requires lo <= hi <= |a| && hi <= |b|
    decreases hi - lo
  {
    lo < hi
    && var mid := (lo + hi) / 2;
    if SameAt(a, b, mid) then mid > d || Misled(a, b, mid + 1, hi, d) else Misled(a, b, lo, mid, d)
  }

  lemma {:induction false} SearchFromIff(a: seq<Block>, b: seq<Block>, lo: nat, hi: nat, d: nat)
    requires lo <= d <= hi <= Min(|a|, |b|) && forall j :: 0 <= j < d ==> SameAt(a, b, j)
    requires d < Min(|a|, |b|) ==> !SameAt(a, b, d)
    ensures SearchFrom(a, b, lo, hi) == d <==> !Misled(a, b, lo, hi, d)
    decreases hi - lo
  {
    if lo < hi {
      var mid := (lo + hi) / 2;
      if !SameAt(a, b, mid) {
        SearchFromIff(a, b, lo, mid, d);
      } else if mid < d {
        SearchFromIff(a, b, mid + 1, hi, d);
      }
    }
  }

  /** On any two lists the search finds what the scan finds exactly when it meets no agreement above it. */
  lemma SearchIsScanIff(a: seq<Block>, b: seq<Block>)
    ensures SearchFork(a, b) == FirstDifference(a, b, 0)
            <==> !Misled(a, b, 0, Min(|a|, |b|), FirstDifference(a, b, 0))
  {
    SearchFromIff(a, b, 0, Min(|a|, |b|), FirstDifference(a, b, 0));
  }

  /** Agreement at a height is agreement at every height below it. */
  ghost predicate AgreesDownward(a: seq<Block>, b: seq<Block>) {
    forall i, j | 0 <= j <= i < |a| && i < |b| :: SameAt(a, b, i) ==> SameAt(a, b, j)
  }

  lemma {:induction false} NeverMisled(a: seq<Block>, b: seq<Block>, lo: nat, hi: nat, d: nat)
    requires lo <= hi <= |a| && hi <= |b| && AgreesDownward(a, b) && d == FirstDifference(a, b, 0)
    ensures !Misled(a, b, lo, hi, d)
    decreases hi - lo
  {
    if lo < hi {
      var mid := (lo + hi) / 2;
      if SameAt(a, b, mid) {
        NeverMisled(a, b, mid + 1, hi, d);
      } else {
        NeverMisled(a, b, lo, mid, d);
      }
    }
  }

  lemma DownwardSearchIsScan(a: seq<Block>, b: seq<Block>)
    requires AgreesDownward(a, b)
    ensures SearchFork(a, b) == FirstDifference(a, b, 0)
  {
    NeverMisled(a, b, 0, Min(|a|, |b|), FirstDifference(a, b, 0));
    SearchIsScanIff(a, b);
  }

  /** Where one of the two claims no later height 0, the search finds what the scan finds. */
  lemma LinkedSearchIsScan(a: seq<Block>, b: seq<Block>)
    requires Linked(a) && Linked(b) && (NoLaterZero(a) || NoLaterZero(b))
    ensures SearchFork(a, b) == FirstDifference(a, b, 0)
  {
    forall i, j | 0 <= j <= i < |a| && i < |b|
      ensures SameAt(a, b, i) ==> SameAt(a, b, j)
    {
      if SameAt(a, b, i) {
        AgreementReachesDown(a, b, i);
      }
    }
    DownwardSearchIsScan(a, b);
  }

  lemma {:induction false} SearchIsSymmetric(a: seq<Block>, b: seq<Block>, lo: nat, hi: nat)
    requires lo <= hi <= |a| && hi <= |b|
    ensures SearchFrom(a, b, lo, hi) == SearchFrom(b, a, lo, hi)
    decreases hi - lo
  {
    if lo < hi {
      var mid := (lo + hi) / 2;
      if SameAt(a, b, mid) {
        SearchIsSymmetric(a, b, mid + 1, hi);
      } else {
        SearchIsSymmetric(a, b, lo, mid);
      }
    }
  }

  /** The search as it is carried out, on any two lists. */
  method ForkPoint(a: seq<Block>, b: seq<Block>) returns (lo: nat)
    ensures lo == SearchFork(a, b)
  {
    lo := 0;
    var hi := if |a| < |b| then |a| else |b|;
    while lo < hi
      invariant 0 <= lo <= hi <= Min(|a|, |b|)
      invariant SearchFrom(a, b, lo, hi) == SearchFork(a, b)
    {
      var mid := (lo + hi) / 2;
      if a[mid].hash == b[mid].hash {
        lo := mid + 1;
      } else {
        hi := mid;
      }
    }
  }

  // ----- The rule ------------------------------------------------------------------------------------

  /** How many heights in [i, end) `a` draws lower than `b`. */
  function Wins(a: seq<Block>, b: seq<Block>, i: nat, end: nat): nat
    requires i <= end <= |a| && end <= |b|
    decreases end - i
  {
    if i == end then 0 else (if Less(a[i].body.key, b[i].body.key) then 1 else 0) + Wins(a, b, i + 1, end)
  }

  function JoinKeys(a: seq<Block>, i: nat, end: nat): string
    requires i <= end <= |a|
    decreases end - i
  {
    if i == end then "" else a[i].body.key + JoinKeys(a, i + 1, end)
  }

  /** The tie-break over the heights from a fork on: the majority of draws, then the digest of all of them. */
  predicate WinsFrom(sha: string -> string, a: seq<Block>, b: seq<Block>, fork: nat)
    requires fork <= |a| && fork <= |b|
  {
    var end := Min(|a|, |b|);
    if Wins(a, b, fork, end) != Wins(b, a, fork, end) then Wins(a, b, fork, end) > Wins(b, a, fork, end)
    else Less(sha(JoinKeys(a, fork, end)), sha(JoinKeys(b, fork, end)))
  }

  /** The tie-break from where the search puts the fork. */
  predicate WinsTieBreak(sha: string -> string, a: seq<Block>, b: seq<Block>) { WinsFrom(sha, a, b, SearchFork(a, b)) }

  predicate IsBetter(sha: string -> string, x: ChainState, y: ChainState)
    requires x.chain != [] && y.chain != []
  {
    if x.work != y.work then x.work > y.work
    else if x.chain[|x.chain| - 1].hash == y.chain[|y.chain| - 1].hash then false
    else WinsTieBreak(sha, x.chain, y.chain)
  }

  method IsBetterThan(sha: string -> string, x: ChainState, y: ChainState) returns (better: bool)
    requires x.chain != [] && y.chain != []
    ensures better == IsBetter(sha, x, y)
  {
    hide Less, JoinKeys, SearchFrom;
    if x.work != y.work {
      return x.work > y.work;
    }
    if x.chain[|x.chain| - 1].hash == y.chain[|y.chain| - 1].hash {
      return false;
    }
    var fork := ForkPoint(x.chain, y.chain);
    var end := if |x.chain| < |y.chain| then |x.chain| else |y.chain|;
    var selfWins, otherWins := 0, 0;
    for i := fork to end
      invariant selfWins + Wins(x.chain, y.chain, i, end) == Wins(x.chain, y.chain, fork, end)
      invariant otherWins + Wins(y.chain, x.chain, i, end) == Wins(y.chain, x.chain, fork, end)
    {
      var a, b := x.chain[i].body.key, y.chain[i].body.key;
      LessIsStrictTotal(a, b);
      if Less(a, b) {
        selfWins := selfWins + 1;
      } else if Less(b, a) {
        otherWins := otherWins + 1;
      }
    }
    if selfWins != otherWins {
      return selfWins > otherWins;
    }
    return Less(sha(JoinKeys(x.chain, fork, end)), sha(JoinKeys(y.chain, fork, end)));
  }

  // ----- What the tie-break counts ---------------------------------------------------------------------------

  /** The heights at which this chain's key is the lower one. */
  function LowerAt(a: seq<Block>, b: seq<Block>, lo: nat, end: nat): set<nat>
    requires end <= |a| && end <= |b|
  {
    set i: nat | lo <= i < end && Less(a[i].body.key, b[i].body.key)
  }

  lemma {:induction false} WinsIsCount(a: seq<Block>, b: seq<Block>, lo: nat, end: nat)
    requires lo <= end <= |a| && end <= |b|
    ensures Wins(a, b, lo, end) == |LowerAt(a, b, lo, end)|
    decreases end - lo
  {
    hide Less;
    if lo == end {
      assert LowerAt(a, b, lo, end) == {};
    } else {
      WinsIsCount(a, b, lo + 1, end);
      var rest := LowerAt(a, b, lo + 1, end);
      assert LowerAt(a, b, lo, end) == if Less(a[lo].body.key, b[lo].body.key) then rest + {lo} else rest;
    }
  }

  /** The keys of a range, one after the other, in order of height. */
  lemma {:induction false} JoinedInOrder(a: seq<Block>, i: nat, mid: nat, end: nat)
    requires i <= mid <= end <= |a|
    ensures JoinKeys(a, i, end) == JoinKeys(a, i, mid) + JoinKeys(a, mid, end)
    ensures mid == i + 1 ==> JoinKeys(a, i, mid) == a[i].body.key
    decreases mid - i
  {
    if i < mid {
      JoinedInOrder(a, i + 1, mid, end);
    }
  }

  /**
   On equal work and different tips the chain with the lower key at more of the heights compared is the
   better one, whatever the margin; at equal numbers the digests of all the keys decide.
   */
  lemma MajorityWins(sha: string -> string, x: ChainState, y: ChainState)
    requires x.chain != [] && y.chain != [] && x.work == y.work
    requires x.chain[|x.chain| - 1].hash != y.chain[|y.chain| - 1].hash
    ensures var fork, end := SearchFork(x.chain, y.chain), Min(|x.chain|, |y.chain|);
            var mine, theirs := LowerAt(x.chain, y.chain, fork, end), LowerAt(y.chain, x.chain, fork, end);
            && (|mine| > |theirs| ==> IsBetter(sha, x, y) && !IsBetter(sha, y, x))
            && (|mine| == |theirs| ==>
                  (IsBetter(sha, x, y) <==> Before(sha(JoinKeys(x.chain, fork, end)), sha(JoinKeys(y.chain, fork, end)))))
  {
    var fork, end := SearchFork(x.chain, y.chain), Min(|x.chain|, |y.chain|);
    SearchIsSymmetric(x.chain, y.chain, 0, end);
    WinsIsCount(x.chain, y.chain, fork, end);
    WinsIsCount(y.chain, x.chain, fork, end);
    hide Less, SearchFrom, Before, LowerAt;
    LessIsBefore(sha(JoinKeys(x.chain, fork, end)), sha(JoinKeys(y.chain, fork, end)));
  }

  // ----- What the rule guarantees --------------------------------------------------------------------------

  lemma {:induction false} ForkIsSymmetric(a: seq<Block>, b: seq<Block>, i: nat)
    requires i <= |a| && i <= |b|
    ensures FirstDifference(a, b, i) == FirstDifference(b, a, i)
    decreases |a| - i
  {
    if i < |a| && i < |b| && a[i].hash == b[i].hash {
      ForkIsSymmetric(a, b, i + 1);
    }
  }

  /** No chain is better than itself, and no two chains are each better than the other. */
  lemma FallsOneWay(sha: string -> string, x: ChainState, y: ChainState)
    requires x.chain != [] && y.chain != []
    ensures !IsBetter(sha, x, x)
    ensures IsBetter(sha, x, y) ==> !IsBetter(sha, y, x)
  {
    var fork, end := SearchFork(x.chain, y.chain), Min(|x.chain|, |y.chain|);
    SearchIsSymmetric(x.chain, y.chain, 0, end);
    LessIsStrictTotal(sha(JoinKeys(x.chain, fork, end)), sha(JoinKeys(y.chain, fork, end)));
  }

  lemma {:induction false} WorkGrows(chain: seq<Block>, k: nat)
    requires ValidChain(chain) && 1 <= k <= |chain|
    ensures ReplayWork(chain[..k]) <= ReplayWork(chain)
    ensures k < |chain| ==> ReplayWork(chain[..k]) < ReplayWork(chain)
  {
    hide ValidChain, Retarget.WindowIterations;
    if k < |chain| {
      var before := chain[..|chain| - 1];
      HeightIsIndex(chain, |chain| - 1);
      Retarget.IterationsOnlyRise(chain, |chain| - 1, |chain| - 1);
      ValidPrefix(chain, |chain| - 1);
      WorkGrows(before, k);
      assert before[..k] == chain[..k];
    } else {
      assert chain[..k] == chain;
    }
  }

  ghost predicate KeysOfLength(a: seq<Block>, i: nat, end: nat, len: nat)
    requires i <= end <= |a|
  {
    forall j :: i <= j < end ==> |a[j].body.key| == len
  }

  /** Keys of one length: the joined value says what each of them is. */
  lemma {:induction false} JoinedKeysDetermineAll(a: seq<Block>, b: seq<Block>, i: nat, end: nat, len: nat)
    requires i <= end <= |a| && end <= |b| && KeysOfLength(a, i, end, len) && KeysOfLength(b, i, end, len)
    requires JoinKeys(a, i, end) == JoinKeys(b, i, end)
    ensures forall j :: i <= j < end ==> a[j].body.key == b[j].body.key
    decreases end - i
  {
    if i < end {
      var x, y := a[i].body.key, b[i].body.key;
      var p, q := JoinKeys(a, i + 1, end), JoinKeys(b, i + 1, end);
      assert (x + p)[..len] == x && (y + q)[..len] == y;
      assert (x + p)[len..] == p && (y + q)[len..] == q;
      JoinedKeysDetermineAll(a, b, i + 1, end, len);
    }
  }

  lemma {:induction false} EqualKeysTie(a: seq<Block>, b: seq<Block>, i: nat, end: nat)
    requires i <= end <= |a| && end <= |b| && forall j :: i <= j < end ==> a[j].body.key == b[j].body.key
    ensures Wins(a, b, i, end) == 0 && Wins(b, a, i, end) == 0 && JoinKeys(a, i, end) == JoinKeys(b, i, end)
    decreases end - i
  {
    if i < end {
      LessIsStrictTotal(a[i].body.key, b[i].body.key);
      EqualKeysTie(a, b, i + 1, end);
    }
  }

  /**
   Two chains with different tips: exactly one is better, unless they tie on work and every shared
   diverged key coincides, and then neither is. Keys have one length and the fallback digest does
   not collide on the two joined values.
   */
  lemma OneSideWinsUnlessKeysCoincide(sha: string -> string, x: ChainState, y: ChainState, len: nat)
    requires x.chain != [] && y.chain != []
    requires x.chain[|x.chain| - 1].hash != y.chain[|y.chain| - 1].hash
    requires var fork, end := SearchFork(x.chain, y.chain), Min(|x.chain|, |y.chain|);
             && KeysOfLength(x.chain, fork, end, len) && KeysOfLength(y.chain, fork, end, len)
             && (sha(JoinKeys(x.chain, fork, end)) == sha(JoinKeys(y.chain, fork, end))
                 ==> JoinKeys(x.chain, fork, end) == JoinKeys(y.chain, fork, end))
    ensures var fork, end := SearchFork(x.chain, y.chain), Min(|x.chain|, |y.chain|);
            !IsBetter(sha, x, y) && !IsBetter(sha, y, x)
            <==> x.work == y.work && forall j :: fork <= j < end ==> x.chain[j].body.key == y.chain[j].body.key
  {
    SearchIsSymmetric(x.chain, y.chain, 0, Min(|x.chain|, |y.chain|));
    var fork, end := SearchFork(x.chain, y.chain), Min(|x.chain|, |y.chain|);
    var s, t := sha(JoinKeys(x.chain, fork, end)), sha(JoinKeys(y.chain, fork, end));
    LessIsStrictTotal(s, t);
    if forall j :: fork <= j < end ==> x.chain[j].body.key == y.chain[j].body.key {
      EqualKeysTie(x.chain, y.chain, fork, end);
    } else if s == t {
      JoinedKeysDetermineAll(x.chain, y.chain, fork, end, len);
    }
  }

  /** Two children of one valid chain: the lower key wins, whatever else they carry. */
  lemma OneBlockForkIsTheDraw(sha: string -> string, chain: seq<Block>, a: Block, b: Block)
    requires ValidChain(chain) && a.body.height != 0 && b.body.height != 0
    requires Fits(Replay(chain), a) && Fits(Replay(chain), b)
    ensures IsBetter(sha, Replay(chain + [a]), Replay(chain + [b])) <==> Less(a.body.key, b.body.key)
  {
    var x, y := chain + [a], chain + [b];
    LessIsStrictTotal(a.body.key, b.body.key);
    SiblingsCarrySameWork(chain, a, b);
    hide ValidChain, Fits, ReplayLedger, ReplayWork, Less;
    assert x[|x| - 1] == a && y[|y| - 1] == b;
    if a.hash == b.hash {
      assert a == b;
    } else {
      var d := |chain|;
      assert forall j :: 0 <= j < d ==> x[j] == y[j] && SameAt(x, y, j);
      OneBlockSearch(x, y);
      assert Wins(x, y, |chain| + 1, |chain| + 1) == 0 && Wins(y, x, |chain| + 1, |chain| + 1) == 0;
      if a.body.key == b.body.key {
        assert JoinKeys(x, d, |x|) == a.body.key + JoinKeys(x, |x|, |x|);
        assert JoinKeys(y, d, |y|) == b.body.key + JoinKeys(y, |y|, |y|);
        LessIsStrictTotal(sha(JoinKeys(x, d, |x|)), sha(JoinKeys(y, d, |y|)));
      }
    }
  }

  lemma OneBlockSearch(x: seq<Block>, y: seq<Block>)
    requires |x| == |y| > 0 && !SameAt(x, y, |x| - 1) && forall j :: 0 <= j < |x| - 1 ==> SameAt(x, y, j)
    ensures SearchFork(x, y) == |x| - 1
  {
    FirstDifferenceIs(x, y, 0, |x| - 1);
    DownwardSearchIsScan(x, y);
  }

  lemma SiblingsCarrySameWork(chain: seq<Block>, a: Block, b: Block)
    requires ValidChain(chain) && a.body.height != 0 && b.body.height != 0
    requires Fits(Replay(chain), a) && Fits(Replay(chain), b)
    ensures ReplayWork(chain + [a]) == ReplayWork(chain + [b]) && HashChecks(a) && HashChecks(b)
  {
    hide Ledger.ValidTxs, GetVdfIterations, ReplayLedger, ValidChain;
    HeightIsIndex(chain, |chain| - 1);
    assert (chain + [a])[..|chain|] == chain && (chain + [b])[..|chain|] == chain;
    assert BuilderChecks(a, chain) && BuilderChecks(b, chain);
    assert ParentChecks(a, chain) && ParentChecks(b, chain);
  }
}
