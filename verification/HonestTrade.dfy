/**
 Two honest engines never deadlock. Once the chains have settled around any two states the sides' runs
 end in, whatever crashes lie behind them, any order in which both keep getting turns finishes the trade
 and delivers both totals exactly.
 */
module HonestTrade {
  import opened Collections
  import opened Planning
  import opened Schedule
  import opened SwapModel
  import opened SwapSafety
  import opened SwapPlans
  import opened SwapRuns
  import opened SwapHonest

  datatype Pair = Pair(a: World, b: World)

  /** One schedule, opposite assets, opposite openers; the settlement floors may differ. */
  ghost predicate Mirrored(s: Terms, t: Terms) {
    s.steps == t.steps && s.sendsLapse != t.sendsLapse && s.opens != t.opens
  }

  /** What one side receives is what the other side's account has paid. */
  ghost predicate Linked(w: World, peer: World) {
    && w.tip == peer.tip
    && (forall n: nat :: n in w.inbound <==> Paid(peer, n))
    && (forall n: nat, i: nat :: PaidAt(peer, n, i) ==> n in w.inbound && w.inbound[n] == peer.account[i].height)
  }

  ghost predicate SideOk(t: Terms, w: World, peer: World) {
    Inv(t, w) && Calm(t, w) && Linked(w, peer)
  }

  ghost predicate JointOk(s: Terms, t: Terms, p: Pair) {
    Mirrored(s, t) && SideOk(s, p.a, p.b) && SideOk(t, p.b, p.a)
  }

  ghost predicate Included(w: World, v: World) {
    forall e :: Pay(e) in w.pool && e.seqNo == |w.account| + 1 ==> AppliedOn(v, e)
  }

  /** The chains settle: they move as they please, but take what was submitted, and bury everything. */
  ghost predicate Settles(s: Terms, t: Terms, p: Pair, q: Pair) {
    && Moves(s, p.a, q.a) && Moves(t, p.b, q.b) && Included(p.a, q.a) && Included(p.b, q.b)
    && Calm(s, q.a) && Calm(t, q.b) && Linked(q.a, q.b) && Linked(q.b, q.a)
  }

  /** One side's engine makes a pass and the chains settle. */
  ghost predicate TurnOf(s: Terms, t: Terms, p: Pair, q: Pair)
    requires |p.a.rows| == |s.steps|
  {
    Settles(s, t, Pair(ExecAll(p.a, FairPlan(s, p.a)), p.b), q)
  }

  function Swapped(p: Pair): Pair { Pair(p.b, p.a) }

  // ----- Where turns can start ------------------------------------------------------------------------------

  /** Chains that settle around two states that keep the invariant leave the sides ready to take turns. */
  lemma SettlingReadies(s: Terms, t: Terms, p: Pair, q: Pair)
    requires Mirrored(s, t) && Inv(s, p.a) && Inv(t, p.b) && Settles(s, t, p, q)
    ensures JointOk(s, t, q)
  {
    MovesKeepInv(s, p.a, q.a);
    MovesKeepInv(t, p.b, q.b);
  }

  /** Whatever the two sides' runs have been through, crashes included, once the chains settle they can take turns. */
  lemma RunsThenSettle(s: Terms, t: Terms, c: Config, d: Config, x: seq<Event>, y: seq<Event>, q: Pair)
    requires Mirrored(s, t) && AcceptedFresh(s, c) && AcceptedFresh(t, d)
    requires Runs(s, c, x) && Spared(s, c, x) && Runs(t, d, y) && Spared(t, d, y)
    requires Settles(s, t, Pair(EndOf(s, c, x).world, EndOf(t, d, y).world), q)
    ensures JointOk(s, t, q)
  {
    RunInv(s, c, x);
    RunInv(t, d, y);
    hide Inv, AcceptedFresh, Runs, Spared, EndOf, Settles;
    SettlingReadies(s, t, Pair(EndOf(s, c, x).world, EndOf(t, d, y).world), q);
  }

  /** Two sides that have just accepted, on chains where nothing is pending, can take turns. */
  lemma FreshPairIsReady(s: Terms, t: Terms, c: Config, d: Config)
    requires Mirrored(s, t) && AcceptedFresh(s, c) && AcceptedFresh(t, d)
    requires c.world.pool == [] && c.world.final == |c.world.account| && c.world.inbound == map[]
    requires d.world.pool == [] && d.world.final == |d.world.account| && d.world.inbound == map[]
    requires c.world.tip == d.world.tip
    ensures JointOk(s, t, Pair(c.world, d.world))
  {
    FreshGood(s, c);
    FreshGood(t, d);
    NothingPaid(s, c);
    NothingPaid(t, d);
  }

  lemma NothingPaid(t: Terms, c: Config)
    requires AcceptedFresh(t, c)
    ensures forall n: nat, i: nat :: !PaidAt(c.world, n, i)
    ensures forall n :: 1 <= n <= |c.world.rows| ==> NonceReached(c.world, n)
  {
    forall n | 1 <= n <= |c.world.rows|
      ensures NonceReached(c.world, n)
    {
      assert FreshRow(t, c.world, n);
    }
  }

  // ----- Progress ------------------------------------------------------------------------------------------

  predicate Done(w: World) { FirstOpen(w.rows, 1) == 0 }

  predicate BothDone(p: Pair) { Done(p.a) && Done(p.b) }

  /** There is nothing for this side to do until the other one pays. */
  ghost predicate Waits(t: Terms, w: World)
    requires |w.rows| == |t.steps|
  {
    var n := FirstOpen(w.rows, 1);
    n == 0 || (n !in w.inbound && (MovesFirst(n, t.opens) ==> Paid(w, n) && w.rows[n - 1].out == Settled))
  }

  ghost function OpenAt(w: World, n: nat): nat
    requires 1 <= n <= |w.rows|
  {
    (if Paid(w, n) then 0 else 1) + (if w.rows[n - 1].out == Settled then 0 else 1)
    + if w.rows[n - 1].inSettled then 0 else 1
  }

  /** Legs unpaid, or not yet known to be settled, over the first `upTo` steps. */
  ghost function OpenLegs(w: World, upTo: nat): nat
    requires upTo <= |w.rows|
  {
    if upTo == 0 then 0 else OpenLegs(w, upTo - 1) + OpenAt(w, upTo)
  }

  ghost predicate NoWorse(w: World, v: World) {
    && |v.rows| == |w.rows|
    && forall n :: 1 <= n <= |w.rows| ==> NoWorseAt(w, v, n)
  }

  ghost predicate NoWorseAt(w: World, v: World, n: nat)
    requires 1 <= n <= |w.rows| == |v.rows|
  {
    && (Paid(w, n) ==> Paid(v, n))
    && (w.rows[n - 1].out == Settled ==> v.rows[n - 1].out == Settled)
    && (w.rows[n - 1].inSettled ==> v.rows[n - 1].inSettled)
  }

  lemma {:induction false} OpenLegsShrink(w: World, v: World, upTo: nat)
    requires NoWorse(w, v) && upTo <= |w.rows|
    ensures OpenLegs(v, upTo) <= OpenLegs(w, upTo)
    ensures OpenLegs(v, upTo) == OpenLegs(w, upTo) ==> forall n :: 1 <= n <= upTo ==> OpenAt(v, n) == OpenAt(w, n)
  {
    if upTo > 0 {
      assert NoWorseAt(w, v, upTo);
      OpenLegsShrink(w, v, upTo - 1);
    }
  }

  /** A side that need not wait gets something done: its leg paid, or a leg known to be settled. */
  ghost predicate Gains(w: World, v: World)
    requires |v.rows| == |w.rows|
  {
    exists n :: 1 <= n <= |w.rows| && OpenAt(v, n) < OpenAt(w, n)
  }

  lemma PassWorks(t: Terms, w: World)
    requires Inv(t, w) && Calm(t, w) && !Done(w)
    ensures var n, v := FirstOpen(w.rows, 1), ExecAll(w, FairPlan(t, w));
            Inv(t, v) && OnlyStep(w, v, n) && StepWorked(t, w, v, n)
  {
    var n := FirstOpen(w.rows, 1);
    forall m | 1 <= m <= |w.rows|
      ensures SpentIsFinal(w, m)
    {
    }
    assert FairPlan(t, w) == AdvanceStep(t, w, n, FairAnswers(w, n));
    AdvanceSafe(t, w, FairAnswers(w, n));
    SafeKeepsInv(t, w, FairPlan(t, w));
    if MovesFirst(n, t.opens) {
      FirstMoverWorks(t, w, n);
    } else {
      SecondMoverWorks(t, w, n);
    }
  }

  /** Settling keeps what is paid and pays what was next. */
  lemma SettlingPays(t: Terms, w: World, v: World)
    requires Moves(t, w, v) && w.final == |w.account| && Included(w, v)
    ensures forall n: nat :: Paid(w, n) ==> Paid(v, n)
    ensures forall e :: w.pool == [Pay(e)] && e.seqNo == |w.account| + 1 ==> Paid(v, e.step)
  {
    forall n: nat | Paid(w, n)
      ensures Paid(v, n)
    {
      var i: nat :| PaidAt(w, n, i);
      assert v.account[..w.final][i] == w.account[..w.final][i];
      assert PaidAt(v, n, i);
    }
    forall e | w.pool == [Pay(e)] && e.seqNo == |w.account| + 1
      ensures Paid(v, e.step)
    {
      assert Pay(e) in w.pool;
      assert AppliedOn(v, e);
      assert PaidAt(v, e.step, e.seqNo - 1);
    }
  }

  /** The side that makes the pass. */
  lemma OwnTurn(t: Terms, w: World, q: World)
    requires Inv(t, w) && Calm(t, w)
    requires Moves(t, ExecAll(w, FairPlan(t, w)), q) && Included(ExecAll(w, FairPlan(t, w)), q)
    ensures Inv(t, q) && NoWorse(w, q)
    ensures !Waits(t, w) ==> Gains(w, q)
  {
    var n, v := FirstOpen(w.rows, 1), ExecAll(w, FairPlan(t, w));
    if n == 0 {
      SettlingPays(t, w, q);
    } else {
      PassWorks(t, w);
      SamePayments(w, v);
      SettlingPays(t, v, q);
      InboundIsSettled(t, w, n);
      TxIdOfStep(t, w, n);
      assert w.final == |w.account|;
      PassGains(t, w, v, q, n);
    }
    MovesKeepInv(t, v, q);
  }

  lemma PassGains(t: Terms, w: World, v: World, q: World, n: nat)
    requires |w.rows| == |t.steps| && IsStep(t, n) && n == FirstOpen(w.rows, 1)
    requires OnlyStep(w, v, n) && StepWorked(t, w, v, n) && q.rows == v.rows
    requires forall m: nat :: Paid(w, m) ==> Paid(q, m)
    requires forall e :: v.pool == [Pay(e)] && e.seqNo == |w.account| + 1 ==> Paid(q, e.step)
    requires w.rows[n - 1].inSettled ==> n in w.inbound
    requires w.rows[n - 1].out == Settled ==> OutSettled(t, w, n)
    ensures NoWorse(w, q)
    ensures !Waits(t, w) ==> Gains(w, q)
  {
    forall m | 1 <= m <= |w.rows|
      ensures NoWorseAt(w, q, m)
    {
      if m != n {
        assert SameFlags(v.rows[m - 1], w.rows[m - 1]);
      }
    }
    if !Waits(t, w) {
      assert Turn(t, w, n);
      if !Paid(w, n) {
        assert Paid(q, n);
      }
      assert !StepDone(w.rows, n);
      assert OpenAt(q, n) < OpenAt(w, n);
    }
  }

  /** The side that only watches. */
  lemma PeersTurn(t: Terms, w: World, q: World)
    requires Inv(t, w) && Calm(t, w) && Moves(t, w, q) && Included(w, q)
    ensures Inv(t, q) && NoWorse(w, q)
  {
    MovesKeepInv(t, w, q);
    SettlingPays(t, w, q);
  }

  ghost function Measure(p: Pair): nat { OpenLegs(p.a, |p.a.rows|) + OpenLegs(p.b, |p.b.rows|) }

  /** A turn never loses ground, and gains some unless the side whose turn it is has to wait. */
  lemma TurnShrinks(s: Terms, t: Terms, p: Pair, q: Pair)
    requires JointOk(s, t, p) && TurnOf(s, t, p, q)
    ensures JointOk(s, t, q) && NoWorse(p.a, q.a) && NoWorse(p.b, q.b) && Measure(q) <= Measure(p)
    ensures !Waits(s, p.a) ==> Measure(q) < Measure(p)
  {
    OwnTurn(s, p.a, q.a);
    PeersTurn(t, p.b, q.b);
    OpenLegsShrink(p.a, q.a, |p.a.rows|);
    OpenLegsShrink(p.b, q.b, |p.b.rows|);
  }

  // ----- No deadlock ---------------------------------------------------------------------------------------------

  lemma DoneIsPaid(t: Terms, w: World, m: nat)
    requires Inv(t, w) && 1 <= m <= |w.rows| && StepDone(w.rows, m)
    ensures Paid(w, m) && InSettled(t, w, m) && OpenAt(w, m) == 0
  {
    assert StoredFits(t, w, m);
  }

  /** While the trade is unfinished, at least one side has something to do. */
  lemma NoDeadlock(s: Terms, t: Terms, p: Pair)
    requires JointOk(s, t, p) && !BothDone(p)
    ensures !Waits(s, p.a) || !Waits(t, p.b)
  {
    if Waits(s, p.a) && Waits(t, p.b) {
      var n, m := FirstOpen(p.a.rows, 1), FirstOpen(p.b.rows, 1);
      if n != 0 {
        FirstWaitsForLater(s, t, p, n, m);
      }
      if m != 0 {
        FirstWaitsForLater(t, s, Swapped(p), m, n);
      }
      assert false;
    }
  }

  /** A side that waits at step n waits for a payment its peer has not made, so the peer is no further. */
  lemma FirstWaitsForLater(s: Terms, t: Terms, p: Pair, n: nat, m: nat)
    requires JointOk(s, t, p) && Waits(s, p.a)
    requires n == FirstOpen(p.a.rows, 1) && n != 0 && m == FirstOpen(p.b.rows, 1)
    ensures m != 0 && m <= n && !Paid(p.b, n)
  {
    assert !Paid(p.b, n);
    if m == 0 || m > n {
      assert StepDone(p.b.rows, n);
      DoneIsPaid(t, p.b, n);
    }
  }

  lemma DoneStays(w: World, v: World)
    requires NoWorse(w, v) && Done(w)
    ensures Done(v)
  {
    forall n | 1 <= n <= |w.rows|
      ensures StepDone(v.rows, n)
    {
      assert NoWorseAt(w, v, n) && StepDone(w.rows, n);
    }
  }

  /** Nothing gained on either side: the side that waited still waits. */
  lemma StillWaits(s: Terms, t: Terms, p: Pair, q: Pair)
    requires JointOk(s, t, p) && JointOk(s, t, q) && Waits(s, p.a)
    requires NoWorse(p.a, q.a) && NoWorse(p.b, q.b) && Measure(q) == Measure(p)
    ensures Waits(s, q.a)
  {
    SidesMatch(s, t, p);
    SidesMatch(s, t, q);
    OpenLegsShrink(p.a, q.a, |p.a.rows|);
    OpenLegsShrink(p.b, q.b, |p.b.rows|);
    hide JointOk, OpenLegs, NoWorse, OpenAt;
    forall n | 1 <= n <= |p.a.rows|
      ensures StepDone(p.a.rows, n) == StepDone(q.a.rows, n)
    {
      SameAt(p.a, q.a, n);
    }
    SameFirstOpen(p.a.rows, q.a.rows);
    var n := FirstOpen(p.a.rows, 1);
    if n != 0 {
      SameAt(p.a, q.a, n);
      SameAt(p.b, q.b, n);
    }
  }

  lemma SidesMatch(s: Terms, t: Terms, p: Pair)
    requires JointOk(s, t, p)
    ensures |p.a.rows| == |p.b.rows| == |s.steps| && forall n: nat :: n in p.a.inbound <==> Paid(p.b, n)
  {
    hide Calm;
  }

  lemma SameAt(w: World, v: World, n: nat)
    requires NoWorse(w, v) && 1 <= n <= |w.rows| && OpenAt(v, n) == OpenAt(w, n)
    ensures Paid(w, n) == Paid(v, n) && StepDone(w.rows, n) == StepDone(v.rows, n)
    ensures (w.rows[n - 1].out == Settled) == (v.rows[n - 1].out == Settled)
  {
    assert NoWorseAt(w, v, n);
  }

  lemma SameFirstOpen(r: seq<Row>, q: seq<Row>)
    requires |r| == |q| && forall n :: 1 <= n <= |r| ==> StepDone(r, n) == StepDone(q, n)
    ensures FirstOpen(r, 1) == FirstOpen(q, 1)
  {
    var n, m := FirstOpen(r, 1), FirstOpen(q, 1);
    assert n != 0 ==> !StepDone(r, n);
    assert m != 0 ==> !StepDone(q, m);
  }

  // ----- Runs, and what they deliver -------------------------------------------------------------------------------

  /** The first side's turn, or the second's. */
  ghost predicate TurnBy(s: Terms, t: Terms, p: Pair, q: Pair, first: bool)
    requires |p.a.rows| == |s.steps| && |p.b.rows| == |t.steps|
  {
    if first then TurnOf(s, t, p, q) else TurnOf(t, s, Swapped(p), Swapped(q))
  }

  ghost predicate Sized(s: Terms, t: Terms, p: Pair) { |p.a.rows| == |s.steps| && |p.b.rows| == |t.steps| }

  /** The sides take their turns in this order. */
  ghost predicate Follows(s: Terms, t: Terms, states: seq<Pair>, order: seq<bool>) {
    && |states| == |order| + 1
    && (forall i :: 0 <= i < |states| ==> Sized(s, t, states[i]))
    && forall i :: 0 <= i < |order| ==> TurnBy(s, t, states[i], states[i + 1], order[i])
  }

  /** The shortest beginning of an order in which both sides have a turn, or 0 where there is none. */
  function FirstRound(order: seq<bool>): (k: nat)
    ensures k <= |order|
    ensures k > 0 ==> true in order[..k] && false in order[..k]
  {
    if |order| < 2 then 0
    else if order[0] != order[1] then
      assert order[..2] == [order[0], order[1]];
      2
    else
      var k := FirstRound(order[1..]);
      assert k > 0 ==> order[..k + 1] == [order[0]] + order[1..][..k];
      if k == 0 then 0 else k + 1
  }

  /** How many times over both sides have had a turn. */
  function Rounds(order: seq<bool>): nat {
    var k := FirstRound(order);
    if k == 0 then 0 else 1 + Rounds(order[k..])
  }

  lemma NoWorseOn(u: World, v: World, w: World)
    requires NoWorse(u, v) && NoWorse(v, w)
    ensures NoWorse(u, w)
  {
    forall n | 1 <= n <= |u.rows|
      ensures NoWorseAt(u, w, n)
    {
      assert NoWorseAt(u, v, n) && NoWorseAt(v, w, n);
    }
  }

  lemma AnyTurnShrinks(s: Terms, t: Terms, p: Pair, q: Pair, first: bool)
    requires JointOk(s, t, p) && Sized(s, t, p) && TurnBy(s, t, p, q, first)
    ensures JointOk(s, t, q) && NoWorse(p.a, q.a) && NoWorse(p.b, q.b) && Measure(q) <= Measure(p)
    ensures Measure(q) == Measure(p) ==> if first then Waits(s, p.a) else Waits(t, p.b)
  {
    if first {
      TurnShrinks(s, t, p, q);
    } else {
      TurnShrinks(t, s, Swapped(p), Swapped(q));
    }
  }

  /** Over any stretch of turns nothing is lost. */
  lemma {:induction false} NothingLost(s: Terms, t: Terms, states: seq<Pair>, order: seq<bool>, i: nat, j: nat)
    requires Follows(s, t, states, order) && i <= j < |states| && JointOk(s, t, states[i])
    ensures JointOk(s, t, states[j]) && Measure(states[j]) <= Measure(states[i])
    ensures NoWorse(states[i].a, states[j].a) && NoWorse(states[i].b, states[j].b)
    decreases j - i
  {
    hide JointOk, TurnBy, Measure, NoWorse;
    if i < j {
      NothingLost(s, t, states, order, i, j - 1);
      var p, q := states[j - 1], states[j - 1 + 1];
      assert TurnBy(s, t, p, q, order[j - 1]);
      AnyTurnShrinks(s, t, p, q, order[j - 1]);
      NoWorseOn(states[i].a, p.a, q.a);
      NoWorseOn(states[i].b, p.b, q.b);
    } else {
      SameIsNoWorse(states[i].a);
      SameIsNoWorse(states[i].b);
    }
  }

  lemma SameIsNoWorse(w: World)
    ensures NoWorse(w, w)
  {
  }

  /** A side that had its turn in a stretch where nothing was gained waits at the end of it. */
  lemma IdleTurnWaits(s: Terms, t: Terms, states: seq<Pair>, order: seq<bool>, i: nat, k: nat, j: nat)
    requires Follows(s, t, states, order) && i <= k < j < |states| && JointOk(s, t, states[i])
    requires Measure(states[j]) == Measure(states[i])
    ensures Sized(s, t, states[j]) && if order[k] then Waits(s, states[j].a) else Waits(t, states[j].b)
  {
    NothingLost(s, t, states, order, i, k);
    NothingLost(s, t, states, order, k, k + 1);
    NothingLost(s, t, states, order, k + 1, j);
    NothingLost(s, t, states, order, k, j);
    assert Sized(s, t, states[k]) && Sized(s, t, states[j]) && TurnBy(s, t, states[k], states[k + 1], order[k]);
    AnyTurnShrinks(s, t, states[k], states[k + 1], order[k]);
    var p, q := states[k], states[j];
    hide Follows, TurnBy, NoWorse, Waits, JointOk, OpenLegs;
    if order[k] {
      StillWaits(s, t, p, q);
    } else {
      SwappedIsJoint(s, t, p);
      SwappedIsJoint(s, t, q);
      StillWaits(t, s, Swapped(p), Swapped(q));
    }
  }

  lemma SwappedIsJoint(s: Terms, t: Terms, p: Pair)
    requires JointOk(s, t, p)
    ensures JointOk(t, s, Swapped(p)) && Measure(Swapped(p)) == Measure(p)
  {
    hide SideOk;
  }

  /** One round, in whatever order: the trade is finished, or something has been done. */
  lemma RoundShrinks(s: Terms, t: Terms, states: seq<Pair>, order: seq<bool>, k: nat)
    requires Follows(s, t, states, order) && JointOk(s, t, states[0]) && k <= |order|
    requires true in order[..k] && false in order[..k]
    ensures JointOk(s, t, states[k]) && (Measure(states[k]) < Measure(states[0]) || BothDone(states[k]))
  {
    NothingLost(s, t, states, order, 0, k);
    if Measure(states[k]) == Measure(states[0]) {
      var i :| 0 <= i < k && order[..k][i] == true;
      var j :| 0 <= j < k && order[..k][j] == false;
      IdleTurnWaits(s, t, states, order, 0, i, k);
      IdleTurnWaits(s, t, states, order, 0, j, k);
      hide Follows, JointOk, Measure, Waits, BothDone, NoWorse;
      if !BothDone(states[k]) {
        NoDeadlock(s, t, states[k]);
      }
    }
  }

  lemma FollowsRest(s: Terms, t: Terms, states: seq<Pair>, order: seq<bool>, k: nat)
    requires Follows(s, t, states, order) && k <= |order|
    ensures Follows(s, t, states[k..], order[k..])
  {
    hide TurnBy;
    var later, rest := states[k..], order[k..];
    forall i {:trigger rest[i]} | 0 <= i < |rest|
      ensures Sized(s, t, later[i]) && Sized(s, t, later[i + 1]) && TurnBy(s, t, later[i], later[i + 1], rest[i])
    {
      assert later[i] == states[k + i] && later[i + 1] == states[k + i + 1];
      assert TurnBy(s, t, states[k + i], states[k + i + 1], order[k + i]);
    }
    forall i | 0 <= i < |later|
      ensures Sized(s, t, later[i])
    {
      assert later[i] == states[k + i];
    }
  }

  /** Every round over which both sides have a turn lowers the count, until the trade is finished. */
  lemma {:induction false} RoundsShrink(s: Terms, t: Terms, states: seq<Pair>, order: seq<bool>)
    requires Follows(s, t, states, order) && JointOk(s, t, states[0])
    ensures JointOk(s, t, states[|order|])
    ensures Measure(states[|order|]) + Rounds(order) <= Measure(states[0]) || BothDone(states[|order|])
    decreases order
  {
    var k, end := FirstRound(order), states[|order|];
    NothingLost(s, t, states, order, 0, |order|);
    if k > 0 {
      RoundShrinks(s, t, states, order, k);
      NothingLost(s, t, states, order, k, |order|);
      FollowsRest(s, t, states, order, k);
      var mid := states[k];
      assert states[k..][0] == mid && states[k..][|order[k..]|] == end;
      assert Rounds(order) == 1 + Rounds(order[k..]);
      hide JointOk, Follows, Measure, BothDone, NoWorse, Rounds, FirstRound;
      RoundsShrink(s, t, states[k..], order[k..]);
      if BothDone(mid) {
        BothDoneStays(mid, end);
      }
    }
  }

  lemma BothDoneStays(p: Pair, q: Pair)
    requires BothDone(p) && NoWorse(p.a, q.a) && NoWorse(p.b, q.b)
    ensures BothDone(q)
  {
    DoneStays(p.a, q.a);
    DoneStays(p.b, q.b);
  }

  /** What the first `upTo` entries of the account have paid towards this trade. */
  function Delivered(w: World, upTo: nat): int
    requires upTo <= |w.account|
  {
    if upTo == 0 then 0
    else Delivered(w, upTo - 1) + if w.account[upTo - 1].tx.Pay? then w.account[upTo - 1].tx.env.amount else 0
  }

  function AmountsOf(t: Terms): seq<int> { if t.sendsLapse then LapseOf(t.steps) else XlmOf(t.steps) }

  ghost predicate PaidWithin(w: World, n: nat, upTo: nat) { exists i: nat :: i < upTo && PaidAt(w, n, i) }

  /** The agreed amounts of the steps paid by the first `upTo` entries. */
  ghost function PaidSteps(t: Terms, w: World, upTo: nat): map<nat, int> {
    map n: nat | 1 <= n <= |t.steps| && PaidWithin(w, n, upTo) :: Amount(t, n)
  }

  lemma EntryFits(t: Terms, w: World, i: nat)
    requires Inv(t, w) && i < |w.account| && w.account[i].tx.Pay?
    ensures var e := w.account[i].tx.env; IsStep(t, e.step) && e.amount == Amount(t, e.step)
  {
    assert w.account[i].tx.env in w.released && EnvelopeFits(t, w, w.account[i].tx.env);
  }

  lemma NoEntryAdded(t: Terms, w: World, upTo: nat)
    requires 0 < upTo <= |w.account| && !w.account[upTo - 1].tx.Pay?
    ensures PaidSteps(t, w, upTo) == PaidSteps(t, w, upTo - 1)
  {
    forall n: nat
      ensures PaidWithin(w, n, upTo) == PaidWithin(w, n, upTo - 1)
    {
    }
  }

  /** One entry per step: adding up the account is adding up the steps it pays. */
  lemma {:induction false} AccountAddsUp(t: Terms, w: World, upTo: nat)
    requires Inv(t, w) && upTo <= |w.account|
    ensures Delivered(w, upTo) == MapSum(PaidSteps(t, w, upTo))
  {
    if upTo == 0 {
      assert PaidSteps(t, w, 0) == map[];
    } else {
      AccountAddsUp(t, w, upTo - 1);
      if w.account[upTo - 1].tx.Pay? {
        EntryFits(t, w, upTo - 1);
        assert PaidOnce(w);
        hide Inv, PaidSteps, MapSum;
        var e := w.account[upTo - 1].tx.env;
        EntryIsNew(t, w, upTo, e);
        MapSumInsert(PaidSteps(t, w, upTo - 1), e.step, e.amount);
      } else {
        hide Inv;
        NoEntryAdded(t, w, upTo);
      }
    }
  }

  lemma EntryIsNew(t: Terms, w: World, upTo: nat, e: Envelope)
    requires PaidOnce(w) && 0 < upTo <= |w.account| && w.account[upTo - 1].tx == Pay(e)
    requires IsStep(t, e.step) && e.amount == Amount(t, e.step)
    ensures e.step !in PaidSteps(t, w, upTo - 1)
    ensures PaidSteps(t, w, upTo) == PaidSteps(t, w, upTo - 1)[e.step := e.amount]
  {
    assert PaidAt(w, e.step, upTo - 1);
    assert !PaidWithin(w, e.step, upTo - 1);
    forall n: nat
      ensures PaidWithin(w, n, upTo) <==> PaidWithin(w, n, upTo - 1) || n == e.step
    {
      if n != e.step {
        assert !PaidAt(w, n, upTo - 1);
      }
    }
  }

  function FirstSteps(t: Terms, k: nat): map<nat, int>
    requires k <= |t.steps|
  {
    map n: nat | 1 <= n <= k :: Amount(t, n)
  }

  lemma {:induction false} StepsAddUp(t: Terms, k: nat)
    requires k <= |t.steps|
    ensures |AmountsOf(t)| == |t.steps| && MapSum(FirstSteps(t, k)) == Sum(AmountsOf(t)[..k])
  {
    if k == 0 {
      assert FirstSteps(t, 0) == map[];
    } else {
      StepsAddUp(t, k - 1);
      MapSumInsert(FirstSteps(t, k - 1), k, Amount(t, k));
      assert FirstSteps(t, k) == FirstSteps(t, k - 1)[k := Amount(t, k)];
      assert AmountsOf(t)[..k] == AmountsOf(t)[..k - 1] + [Amount(t, k)];
      SumAppend(AmountsOf(t)[..k - 1], [Amount(t, k)]);
      assert Sum([Amount(t, k)]) == Amount(t, k);
    }
  }

  /** A side whose steps are all settled has paid exactly the sum of its legs. */
  lemma DoneDelivers(t: Terms, w: World)
    requires Inv(t, w) && Done(w)
    ensures Delivered(w, |w.account|) == Sum(AmountsOf(t))
  {
    AccountAddsUp(t, w, |w.account|);
    StepsAddUp(t, |t.steps|);
    assert AmountsOf(t)[..|t.steps|] == AmountsOf(t);
    forall n: nat | 1 <= n <= |t.steps|
      ensures PaidWithin(w, n, |w.account|)
    {
      assert StepDone(w.rows, n);
      DoneIsPaid(t, w, n);
    }
    assert PaidSteps(t, w, |w.account|) == FirstSteps(t, |t.steps|);
  }

  lemma {:induction false} MeasureIsSmall(w: World, upTo: nat)
    requires upTo <= |w.rows|
    ensures OpenLegs(w, upTo) <= 3 * upTo
  {
    if upTo > 0 {
      MeasureIsSmall(w, upTo - 1);
    }
  }

  lemma {:induction false} NothingOpen(w: World, upTo: nat)
    requires upTo <= |w.rows| && OpenLegs(w, upTo) == 0
    ensures forall n :: 1 <= n <= upTo ==> StepDone(w.rows, n)
    ensures upTo == |w.rows| ==> Done(w)
  {
    if upTo > 0 {
      NothingOpen(w, upTo - 1);
    }
  }

  lemma SmallMeasure(s: Terms, t: Terms, p: Pair)
    requires JointOk(s, t, p)
    ensures Measure(p) <= 6 * |s.steps|
    ensures Measure(p) == 0 ==> BothDone(p)
  {
    assert |p.a.rows| == |p.b.rows| == |s.steps|;
    hide Inv, Calm;
    MeasureIsSmall(p.a, |s.steps|);
    MeasureIsSmall(p.b, |s.steps|);
    if Measure(p) == 0 {
      NothingOpen(p.a, |p.a.rows|);
      NothingOpen(p.b, |p.b.rows|);
    }
  }

  lemma EnoughRounds(s: Terms, t: Terms, states: seq<Pair>, order: seq<bool>)
    requires Follows(s, t, states, order) && JointOk(s, t, states[0]) && Rounds(order) >= 6 * |s.steps|
    ensures JointOk(s, t, states[|order|]) && BothDone(states[|order|])
  {
    hide JointOk, TurnBy, Measure, BothDone, Rounds;
    RoundsShrink(s, t, states, order);
    SmallMeasure(s, t, states[0]);
    SmallMeasure(s, t, states[|order|]);
  }

  /**
   Two honest sides of one planned trade, from any settled state, in any order in which both have a turn
   six times a step over: the trade is finished, and each account has paid exactly the total agreed.
   */
  lemma HonestTradesFinish(s: Terms, t: Terms, states: seq<Pair>, order: seq<bool>, lapseTotal: int, xlmTotal: int, cap: int)
    requires cap >= MIN_STEP_STROOPS
    requires Follows(s, t, states, order) && JointOk(s, t, states[0]) && Rounds(order) >= 6 * |s.steps|
    ensures BothDone(states[|order|])
    ensures Planned(s.steps, lapseTotal, xlmTotal, cap) ==>
              var p := states[|order|];
              && Delivered(p.a, |p.a.account|) == (if s.sendsLapse then lapseTotal else xlmTotal)
              && Delivered(p.b, |p.b.account|) == (if t.sendsLapse then lapseTotal else xlmTotal)
  {
    EnoughRounds(s, t, states, order);
    var p := states[|order|];
    hide Planned, Inv, Calm, Delivered, Done, Follows, Linked;
    if Planned(s.steps, lapseTotal, xlmTotal, cap) {
      PlannedIs(s.steps, lapseTotal, xlmTotal, cap);
      DoneDelivers(s, p.a);
      DoneDelivers(t, p.b);
    }
  }
}
