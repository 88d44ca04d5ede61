/**
 Who is to blame for a stuck trade: the participant's own verdict from its rows, and the verdict any
 bystander reaches from the signed terms and the two chains.
 */
module Blame {
  import opened Collections
  import opened Schedule
  import opened SwapModel
  import opened SwapSafety

  const ABANDON_AFTER_BLOCKS: int := 30

  datatype Party = Maker | Taker

  /** What an accepted pair signs, beyond the amounts. */
  datatype Signed = Signed(count: nat, acceptedHeight: int, confirmDepth: int, makerOpens: bool, makerSendsLapse: bool)

  /** Depth of each step's two payments as a lookup on the chains finds them. */
  datatype Facts = Facts(maker: seq<Option<int>>, taker: seq<Option<int>>, height: int)

  datatype Verdict = Verdict(settledSteps: nat, total: nat, atFault: Option<Party>)

  predicate FactsFit(s: Signed, f: Facts) { |f.maker| == |f.taker| == s.count }

  predicate PubliclySettled(s: Signed, depth: Option<int>, lapse: bool) {
    depth.Some? && depth.value >= if lapse then Max(s.confirmDepth, MIN_CONFIRM_DEPTH) else 1
  }

  predicate MakerSettled(s: Signed, f: Facts, n: nat)
    requires FactsFit(s, f) && 1 <= n <= s.count
  {
    PubliclySettled(s, f.maker[n - 1], s.makerSendsLapse)
  }

  predicate TakerSettled(s: Signed, f: Facts, n: nat)
    requires FactsFit(s, f) && 1 <= n <= s.count
  {
    PubliclySettled(s, f.taker[n - 1], !s.makerSendsLapse)
  }

  /** The block a settled step's LAPSE leg confirmed in. */
  function LapseHeight(s: Signed, f: Facts, n: nat): int
    requires FactsFit(s, f) && 1 <= n <= s.count && MakerSettled(s, f, n) && TakerSettled(s, f, n)
  {
    f.height - (if s.makerSendsLapse then f.maker[n - 1].value else f.taker[n - 1].value) + 1
  }

  function Budget(s: Signed): int { s.confirmDepth * STEP_TIMEOUT_MULTIPLIER }

  /** The verdict from step `n` on, with that step's clock started at `base`. */
  function VerdictFrom(s: Signed, f: Facts, n: nat, base: int): Verdict
    requires FactsFit(s, f) && 1 <= n <= s.count + 1
    decreases s.count - n
  {
    if n > s.count then Verdict(s.count, s.count, None)
    else if MakerSettled(s, f, n) && TakerSettled(s, f, n) then VerdictFrom(s, f, n + 1, LapseHeight(s, f, n))
    else
      var first := if MovesFirst(n, s.makerOpens) then MakerSettled(s, f, n) else TakerSettled(s, f, n);
      var second := if MovesFirst(n, s.makerOpens) then Taker else Maker;
      if first && f.height >= base + Budget(s) + ABANDON_AFTER_BLOCKS then Verdict(n - 1, s.count, Some(second))
      else Verdict(n - 1, s.count, None)
  }

  /** Step `n`'s public deadline, its clock started by the step before it. */
  function PublicDeadline(s: Signed, f: Facts, n: nat): int
    requires FactsFit(s, f) && 1 <= n <= s.count
    requires n > 1 ==> MakerSettled(s, f, n - 1) && TakerSettled(s, f, n - 1)
  {
    (if n == 1 then s.acceptedHeight else LapseHeight(s, f, n - 1)) + Budget(s)
  }

  predicate BothLegs(s: Signed, f: Facts, n: nat)
    requires FactsFit(s, f) && 1 <= n <= s.count
  {
    MakerSettled(s, f, n) && TakerSettled(s, f, n)
  }

  /** The first step not settled both ways. */
  ghost predicate FirstStuck(s: Signed, f: Facts, n: nat)
    requires FactsFit(s, f)
  {
    && 1 <= n <= s.count && !BothLegs(s, f, n)
    && (forall k :: 1 <= k < n ==> BothLegs(s, f, k)) && (n > 1 ==> BothLegs(s, f, n - 1))
  }

  predicate FirstLegIn(s: Signed, f: Facts, n: nat)
    requires FactsFit(s, f) && 1 <= n <= s.count
  {
    if MovesFirst(n, s.makerOpens) then MakerSettled(s, f, n) else TakerSettled(s, f, n)
  }

  /**
   What a verdict has to say. With every step settled nobody is at fault. Otherwise it counts the steps
   before the first stuck one, and names that step's second mover exactly when the first mover's leg is in
   and the step's public deadline and the grace are both past; within them it names nobody.
   */
  ghost predicate IsVerdict(s: Signed, f: Facts, v: Verdict)
    requires FactsFit(s, f)
  {
    && v.total == s.count
    && ((forall k :: 1 <= k <= s.count ==> BothLegs(s, f, k)) ==> v.settledSteps == s.count && v.atFault.None?)
    && forall n: nat :: FirstStuck(s, f, n) ==>
         && v.settledSteps == n - 1
         && (v.atFault.Some? <==> FirstLegIn(s, f, n) && f.height >= PublicDeadline(s, f, n) + ABANDON_AFTER_BLOCKS)
         && (v.atFault.Some? ==> v.atFault.value == if MovesFirst(n, s.makerOpens) then Taker else Maker)
  }

  lemma OnlyOneStuck(s: Signed, f: Facts, m: nat, n: nat)
    requires FactsFit(s, f) && FirstStuck(s, f, m) && FirstStuck(s, f, n)
    ensures m == n
  {
    hide BothLegs;
  }

  /** The verdict from a step on is the one from the first step, where everything before it is settled. */
  lemma {:induction false} VerdictFromIs(s: Signed, f: Facts, n: nat, base: int)
    requires FactsFit(s, f) && 1 <= n <= s.count + 1 && (forall k :: 1 <= k < n ==> BothLegs(s, f, k))
    requires n > 1 ==> BothLegs(s, f, n - 1)
    requires base == if n == 1 then s.acceptedHeight else LapseHeight(s, f, n - 1)
    ensures IsVerdict(s, f, VerdictFrom(s, f, n, base))
    decreases s.count - n
  {
    if n <= s.count {
      if BothLegs(s, f, n) {
        VerdictFromIs(s, f, n + 1, LapseHeight(s, f, n));
      } else {
        assert base + Budget(s) == PublicDeadline(s, f, n);
        forall m: nat | FirstStuck(s, f, m)
          ensures m == n
        {
          OnlyOneStuck(s, f, m, n);
        }
      }
    }
  }

  lemma VerdictIs(s: Signed, f: Facts)
    requires FactsFit(s, f)
    ensures IsVerdict(s, f, VerdictFrom(s, f, 1, s.acceptedHeight))
  {
    VerdictFromIs(s, f, 1, s.acceptedHeight);
  }

  method VerifyTradeAgainstChain(s: Signed, f: Facts) returns (v: Verdict)
    requires FactsFit(s, f)
    ensures v == VerdictFrom(s, f, 1, s.acceptedHeight) && IsVerdict(s, f, v)
  {
    VerdictIs(s, f);
    hide IsVerdict;
    var baseHeight := s.acceptedHeight;
    for n := 1 to s.count + 1
      invariant VerdictFrom(s, f, n, baseHeight) == VerdictFrom(s, f, 1, s.acceptedHeight)
    {
      var makerSettled := MakerSettled(s, f, n);
      var takerSettled := TakerSettled(s, f, n);
      if makerSettled && takerSettled {
        baseHeight := LapseHeight(s, f, n);
      } else {
        var makerFirst := MovesFirst(n, s.makerOpens);
        var firstSettled := if makerFirst then makerSettled else takerSettled;
        if !firstSettled || f.height < baseHeight + Budget(s) + ABANDON_AFTER_BLOCKS {
          return Verdict(n - 1, s.count, None);
        }
        return Verdict(n - 1, s.count, Some(if makerFirst then Taker else Maker));
      }
    }
    return Verdict(s.count, s.count, None);
  }

  /** The participant's own verdict: the first row not settled both ways is one it has paid, long past its deadline. */
  predicate Delinquent(stalled: bool, rows: seq<Row>, height: int) {
    var n := FirstOpen(rows, 1);
    && stalled && n != 0
    && rows[n - 1].out == Settled && rows[n - 1].deadline != 0
    && height >= rows[n - 1].deadline + ABANDON_AFTER_BLOCKS
  }

  /** This step is this node's to complain of: all before it is settled, its own leg is in, the peer's is not, and its time is up. */
  ghost predicate Overdue(rows: seq<Row>, n: nat, height: int) {
    && 1 <= n <= |rows| && (forall m :: 1 <= m < n ==> StepDone(rows, m))
    && rows[n - 1].out == Settled && !rows[n - 1].inSettled
    && rows[n - 1].deadline != 0 && height - rows[n - 1].deadline >= ABANDON_AFTER_BLOCKS
  }

  lemma DelinquentIff(stalled: bool, rows: seq<Row>, height: int)
    ensures Delinquent(stalled, rows, height) <==> stalled && exists n: nat :: Overdue(rows, n, height)
  {
    var n := FirstOpen(rows, 1);
    if n != 0 && Delinquent(stalled, rows, height) {
      assert !StepDone(rows, n) && Overdue(rows, n, height);
    }
    forall m: nat | Overdue(rows, m, height)
      ensures m == n
    {
      assert !StepDone(rows, m);
    }
  }

  method IsDelinquent(stalled: bool, rows: seq<Row>, height: int) returns (d: bool)
    ensures d == Delinquent(stalled, rows, height)
  {
    if !stalled {
      return false;
    }
    for i := 0 to |rows|
      invariant FirstOpen(rows, 1) == FirstOpen(rows, i + 1)
    {
      var inc := rows[i];
      if !(inc.out == Settled && inc.inSettled) {
        if inc.out != Settled || inc.deadline == 0 {
          return false;
        }
        return height >= inc.deadline + ABANDON_AFTER_BLOCKS;
      }
    }
    return false;
  }

  // ----- The two verdicts agree --------------------------------------------------------------------------

  /** The depth of this node's payment of a step, as the chain reports it. */
  ghost predicate DepthOfOwn(t: Terms, w: World, n: nat, d: Option<int>) {
    && (d.None? <==> !Paid(w, n))
    && (d.Some? ==> exists i: nat :: PaidAt(w, n, i) && d.value == Depth(t.sendsLapse, w.tip, w.account[i].height))
  }

  function DepthOfPeers(t: Terms, w: World, n: nat): Option<int> {
    if n in w.inbound then Some(Depth(!t.sendsLapse, w.tip, w.inbound[n])) else None
  }

  /** The bystander's facts and the participant's world describe the same chains and the same signed pair. */
  ghost predicate SameChains(t: Terms, w: World, me: Party, s: Signed, f: Facts) {
    && s.count == |t.steps| && FactsFit(s, f) && f.height == w.tip
    && s.acceptedHeight == t.acceptedHeight && s.confirmDepth == t.confirmDepth
    && s.makerOpens == (if me == Maker then t.opens else !t.opens)
    && s.makerSendsLapse == (if me == Maker then t.sendsLapse else !t.sendsLapse)
    && forall n :: 1 <= n <= s.count ==> SameStep(t, w, me, f, n)
  }

  ghost predicate SameStep(t: Terms, w: World, me: Party, f: Facts, n: nat)
    requires 1 <= n <= |f.maker| && n <= |f.taker|
  {
    && DepthOfOwn(t, w, n, if me == Maker then f.maker[n - 1] else f.taker[n - 1])
    && (if me == Maker then f.taker[n - 1] else f.maker[n - 1]) == DepthOfPeers(t, w, n)
  }

  function Peer(me: Party): Party { if me == Maker then Taker else Maker }

  predicate OwnLeg(me: Party, s: Signed, f: Facts, n: nat)
    requires FactsFit(s, f) && 1 <= n <= s.count
  {
    if me == Maker then MakerSettled(s, f, n) else TakerSettled(s, f, n)
  }

  predicate PeersLeg(me: Party, s: Signed, f: Facts, n: nat)
    requires FactsFit(s, f) && 1 <= n <= s.count
  {
    if me == Maker then TakerSettled(s, f, n) else MakerSettled(s, f, n)
  }

  /** This node's own floor asks for no more depth than the trade itself. */
  predicate FloorInsideTerms(t: Terms) { t.minDepth <= Max(t.confirmDepth, MIN_CONFIRM_DEPTH) }

  /** What this node counts as settled the signed terms count as settled; the converse, for the peer's leg, needs the floor inside the terms. */
  lemma SettlementIsPublic(t: Terms, w: World, me: Party, s: Signed, f: Facts, n: nat)
    requires Inv(t, w) && SameChains(t, w, me, s, f) && 1 <= n <= s.count
    ensures OutSettled(t, w, n) ==> OwnLeg(me, s, f, n)
    ensures InSettled(t, w, n) ==> PeersLeg(me, s, f, n)
    ensures t.sendsLapse || FloorInsideTerms(t) ==> (InSettled(t, w, n) <==> PeersLeg(me, s, f, n))
  {
    assert SameStep(t, w, me, f, n);
  }

  /** The height a settled step's clock restarts from is the block its LAPSE payment stands in. */
  lemma LapseHeightIsItsBlock(t: Terms, w: World, me: Party, s: Signed, f: Facts, n: nat)
    requires SameChains(t, w, me, s, f) && 1 <= n <= s.count && MakerSettled(s, f, n) && TakerSettled(s, f, n)
    ensures t.sendsLapse ==> exists i: nat :: PaidAt(w, n, i) && LapseHeight(s, f, n) == w.account[i].height
    ensures !t.sendsLapse ==> n in w.inbound && LapseHeight(s, f, n) == w.inbound[n]
  {
    assert SameStep(t, w, me, f, n);
  }

  lemma PublicHeightIsNoLater(t: Terms, w: World, me: Party, s: Signed, f: Facts, n: nat, h: int)
    requires Inv(t, w) && SameChains(t, w, me, s, f) && 1 <= n <= s.count
    requires BothSettled(t, w, n) && LapseLegBy(t, w, n, h)
    ensures MakerSettled(s, f, n) && TakerSettled(s, f, n) && LapseHeight(s, f, n) <= h
  {
    SettlementIsPublic(t, w, me, s, f, n);
    assert SameStep(t, w, me, f, n);
  }

  lemma {:induction false} VerdictReachesStep(t: Terms, w: World, me: Party, s: Signed, f: Facts, m: nat, n: nat, base: int)
    requires Inv(t, w) && SameChains(t, w, me, s, f)
    requires 1 <= m <= n <= s.count && forall k :: m <= k < n ==> BothSettled(t, w, k)
    ensures m == n ==> VerdictFrom(s, f, m, base) == VerdictFrom(s, f, n, base)
    ensures m < n ==>
              && MakerSettled(s, f, n - 1) && TakerSettled(s, f, n - 1)
              && VerdictFrom(s, f, m, base) == VerdictFrom(s, f, n, LapseHeight(s, f, n - 1))
    decreases n - m
  {
    if m < n {
      assert BothSettled(t, w, m);
      SettlementIsPublic(t, w, me, s, f, m);
      VerdictReachesStep(t, w, me, s, f, m + 1, n, LapseHeight(s, f, m));
    }
  }

  /** This node holds its peer delinquent, and its row for the stuck step is current. */
  ghost predicate BlamesPeer(t: Terms, w: World, stalled: bool) {
    && Inv(t, w) && Delinquent(stalled, w.rows, w.tip)
    && (InSettled(t, w, FirstOpen(w.rows, 1)) ==> w.rows[FirstOpen(w.rows, 1) - 1].inSettled)
  }

  /** Only a step this node opens can leave it holding its peer delinquent. */
  lemma BlameIsOverOwnStep(t: Terms, w: World, stalled: bool)
    requires BlamesPeer(t, w, stalled)
    ensures var n := FirstOpen(w.rows, 1);
            && MovesFirst(n, t.opens) && OutSettled(t, w, n) && !InSettled(t, w, n)
            && (forall k :: 1 <= k < n ==> BothSettled(t, w, k))
            && DeadlineFits(t, w, n, w.rows[n - 1].deadline)
  {
    var n := FirstOpen(w.rows, 1);
    assert StoredFits(t, w, n);
    forall k | 1 <= k < n
      ensures BothSettled(t, w, k)
    {
      assert StepDone(w.rows, k) && StoredFits(t, w, k);
    }
    var i: nat :| PaidAt(w, n, i);
    assert EnvelopeFits(t, w, w.account[i].tx.env);
  }

  /**
   Local blame implies public blame, in every state that keeps the invariant: when the participant holds
   its peer delinquent and its row for the stuck step is current, any bystander at the same height names
   that same peer, for the same step. `BlameRuns` asks which states a run reaches.
   */
  lemma LocalBlameIsPublic(t: Terms, w: World, me: Party, s: Signed, f: Facts, stalled: bool)
    requires BlamesPeer(t, w, stalled) && SameChains(t, w, me, s, f)
    requires t.sendsLapse || FloorInsideTerms(t)
    ensures VerdictFrom(s, f, 1, s.acceptedHeight) == Verdict(FirstOpen(w.rows, 1) - 1, s.count, Some(Peer(me)))
  {
    var n := FirstOpen(w.rows, 1);
    BlameIsOverOwnStep(t, w, stalled);
    SettlementIsPublic(t, w, me, s, f, n);
    VerdictReachesStep(t, w, me, s, f, 1, n, s.acceptedHeight);
    if n > 1 {
      assert BothSettled(t, w, n - 1);
      PublicHeightIsNoLater(t, w, me, s, f, n - 1, w.rows[n - 1].deadline - StepBudget(t));
    }
  }

  // ----- The check that asks no chain -----------------------------------------------------------------------

  predicate TradeExpiredBy(s: Signed, height: int) {
    height >= s.acceptedHeight + s.count * Budget(s) + ABANDON_AFTER_BLOCKS
  }

  ghost predicate MetDeadline(s: Signed, f: Facts, n: nat)
    requires FactsFit(s, f) && 1 <= n <= s.count
  {
    && MakerSettled(s, f, n) && TakerSettled(s, f, n)
    && (n > 1 ==> MakerSettled(s, f, n - 1) && TakerSettled(s, f, n - 1))
    && LapseHeight(s, f, n) <= PublicDeadline(s, f, n)
  }

  lemma {:induction false} DeadlinesAccumulate(s: Signed, f: Facts, n: nat)
    requires FactsFit(s, f) && 1 <= n <= s.count
    requires forall m :: 1 <= m < n ==> MetDeadline(s, f, m)
    requires n > 1 ==> MakerSettled(s, f, n - 1) && TakerSettled(s, f, n - 1)
    ensures PublicDeadline(s, f, n) <= s.acceptedHeight + n * Budget(s)
  {
    if n == 1 {
      assert 1 * Budget(s) == Budget(s);
    } else {
      assert MetDeadline(s, f, n - 1);
      if n > 2 {
        assert MetDeadline(s, f, n - 2);
      }
      DeadlinesAccumulate(s, f, n - 1);
      assert n * Budget(s) == (n - 1) * Budget(s) + Budget(s);
    }
  }

  /**
   The chain-free expiry check is safe: when it fires and every settled step met its own deadline, the
   first unfinished step is already past its public deadline and the grace, so the exact check names
   whoever owes its second leg as soon as the first is there.
   */
  lemma ExpiryIsSafe(s: Signed, f: Facts, n: nat)
    requires FactsFit(s, f) && 1 <= n <= s.count && s.confirmDepth >= 0
    requires forall m :: 1 <= m < n ==> MetDeadline(s, f, m)
    requires !(MakerSettled(s, f, n) && TakerSettled(s, f, n))
    requires TradeExpiredBy(s, f.height)
    ensures n > 1 ==> MakerSettled(s, f, n - 1) && TakerSettled(s, f, n - 1)
    ensures f.height >= PublicDeadline(s, f, n) + ABANDON_AFTER_BLOCKS
    ensures VerdictFrom(s, f, 1, s.acceptedHeight).settledSteps == n - 1
    ensures VerdictFrom(s, f, 1, s.acceptedHeight).atFault.Some?
            <==> if MovesFirst(n, s.makerOpens) then MakerSettled(s, f, n) else TakerSettled(s, f, n)
  {
    if n > 1 {
      assert MetDeadline(s, f, n - 1);
    }
    DeadlinesAccumulate(s, f, n);
    assert n * Budget(s) <= s.count * Budget(s) by {
      ScaleUp(n, s.count, Budget(s));
    }
    ExactCheckReaches(s, f, 1, n, s.acceptedHeight);
  }

  /** Every step so far settled at the last moment it could without being late. */
  ghost predicate JustInTime(s: Signed, f: Facts, n: nat)
    requires FactsFit(s, f) && n <= s.count
  {
    forall m: nat :: 1 <= m <= n ==> MetDeadline(s, f, m) && LapseHeight(s, f, m) == PublicDeadline(s, f, m)
  }

  lemma {:induction false} JustInTimeDeadline(s: Signed, f: Facts, n: nat)
    requires FactsFit(s, f) && 1 <= n <= s.count && JustInTime(s, f, n - 1)
    ensures n > 1 ==> MetDeadline(s, f, n - 1)
    ensures PublicDeadline(s, f, n) == s.acceptedHeight + n * Budget(s)
  {
    hide MakerSettled, TakerSettled, Budget;
    if n > 1 {
      assert MetDeadline(s, f, n - 1) && JustInTime(s, f, n - 2);
      assert PublicDeadline(s, f, n) == PublicDeadline(s, f, n - 1) + Budget(s);
      hide *;
      JustInTimeDeadline(s, f, n - 1);
      OneMore(n - 1, Budget(s));
    } else {
      assert 1 * Budget(s) == Budget(s);
    }
  }

  /**
   The chain-free check waits no longer than it must: where every step but the last used all its time, it
   fires exactly when the last step is past its public deadline and the grace.
   */
  lemma ExpiryIsTight(s: Signed, f: Facts)
    requires FactsFit(s, f) && s.count >= 1 && JustInTime(s, f, s.count - 1)
    ensures s.count > 1 ==> MetDeadline(s, f, s.count - 1)
    ensures TradeExpiredBy(s, f.height) <==> f.height >= PublicDeadline(s, f, s.count) + ABANDON_AFTER_BLOCKS
  {
    JustInTimeDeadline(s, f, s.count);
  }

  lemma {:induction false} ExactCheckReaches(s: Signed, f: Facts, m: nat, n: nat, base: int)
    requires FactsFit(s, f) && 1 <= m <= n <= s.count
    requires forall k :: m <= k < n ==> MetDeadline(s, f, k)
    ensures m == n ==> VerdictFrom(s, f, m, base) == VerdictFrom(s, f, n, base)
    ensures m < n ==>
              && MakerSettled(s, f, n - 1) && TakerSettled(s, f, n - 1)
              && VerdictFrom(s, f, m, base) == VerdictFrom(s, f, n, LapseHeight(s, f, n - 1))
    decreases n - m
  {
    if m < n {
      assert MetDeadline(s, f, m);
      ExactCheckReaches(s, f, m + 1, n, LapseHeight(s, f, m));
    }
  }
}
