/** Exactly when the participant's verdict and the bystander's agree in every state a run from acceptance reaches. */
module BlameRuns {
  import opened Collections
  import opened Schedule
  import opened SwapModel
  import opened SwapSafety
  import opened SwapPlans
  import opened SwapRuns
  import opened SwapHonest
  import opened SwapRebuild
  import opened Blame
  import opened HonestRuns
  import opened SwapDeadlines

  /** The end of a run from acceptance, a careful one where LAPSE goes out. */
  ghost predicate Reached(t: Terms, w: World) {
    exists c, events :: AcceptedFresh(t, c) && Runs(t, c, events) && Spared(t, c, events) && EndOf(t, c, events).world == w
  }

  /** Every bystander names whomever this node holds delinquent, for the same step, in every state a run reaches. */
  ghost predicate BlameAlwaysPublic(t: Terms, me: Party) {
    forall w, s, f, stalled | Reached(t, w) && BlamesPeer(t, w, stalled) && SameChains(t, w, me, s, f) ::
      VerdictFrom(s, f, 1, s.acceptedHeight) == Verdict(FirstOpen(w.rows, 1) - 1, s.count, Some(Peer(me)))
  }

  predicate OpensSomeStep(t: Terms) { |t.steps| >= if t.opens then 1 else 2 }

  lemma OpensIffOpensSomeStep(t: Terms)
    ensures OpensSomeStep(t) <==> exists n: nat :: IsStep(t, n) && MovesFirst(n, t.opens)
  {
    if OpensSomeStep(t) {
      assert MovesFirst(if t.opens then 1 else 2, t.opens);
    }
  }

  lemma ReachedFrom(t: Terms, c: Config, d: Config)
    requires AcceptedFresh(t, c) && Reaches(t, c, d)
    ensures Reached(t, d.world) && Inv(t, d.world)
  {
    var events :| Runs(t, c, events) && Careful(t, c, events) && EndOf(t, c, events) == d;
    RunInv(t, c, events);
  }

  // ----- One step of a run that ends in blame -------------------------------------------------------------------

  /** An XLM sender has come to a step it opens, with everything before it settled. */
  ghost predicate AtOwnStep(t: Terms, w: World, n: nat) {
    && TermsOk(t) && SignedTerms(t) && !t.sendsLapse && !FloorInsideTerms(t)
    && Inv(t, w) && IsStep(t, n) && MovesFirst(n, t.opens) && FirstOpen(w.rows, 1) == n
    && w.pool == [] && !Paid(w, n) && n !in w.inbound
    && w.rows[n - 1] == Row(Pending, None, None, false, false, 0, w.rows[n - 1].deadline) && w.rows[n - 1].deadline != 0
  }

  function NextEnvelope(t: Terms, w: World, n: nat): Envelope
    requires IsStep(t, n)
  {
    Envelope(n, |w.account| + 1, Amount(t, n))
  }

  function SentStep(t: Terms, w: World, n: nat): World
    requires IsStep(t, n) && |w.rows| == |t.steps|
  {
    var e := NextEnvelope(t, w, n);
    w.(released := w.released + {e}, pool := w.pool + [Pay(e)],
       rows := w.rows[n - 1 := w.rows[n - 1].(envelope := Some(e), txId := Some(e), out := Submitted)])
  }

  function SignedDepth(t: Terms): int { Max(t.confirmDepth, MIN_CONFIRM_DEPTH) }

  /** Long after the step's deadline. */
  function LateTip(t: Terms, w: World, n: nat): int
    requires IsStep(t, n) && |w.rows| == |t.steps|
  {
    Max(w.tip, w.rows[n - 1].deadline) + ABANDON_AFTER_BLOCKS + SignedDepth(t)
  }

  /** The payment is in, and the peer's LAPSE for the step has exactly the signed depth. */
  function PaidShallow(t: Terms, w: World, n: nat): World
    requires IsStep(t, n) && |w.rows| == |t.steps|
  {
    var x, tip := SentStep(t, w, n), LateTip(t, w, n);
    x.(account := w.account + [Applied(Pay(NextEnvelope(t, w, n)), w.tip)], final := |w.account| + 1, tip := tip,
       pool := [], inbound := w.inbound[n := tip - SignedDepth(t) + 1])
  }

  /** What the next pass leaves: this node's leg settled, the peer's seen but not deep enough. */
  function Blaming(t: Terms, w: World, n: nat): World
    requires IsStep(t, n) && |w.rows| == |t.steps|
  {
    var x := PaidShallow(t, w, n);
    x.(rows := x.rows[n - 1 := x.rows[n - 1].(out := Settled, inSeen := true)])
  }

  lemma StepIsUnsent(t: Terms, w: World, n: nat)
    requires AtOwnStep(t, w, n)
    ensures CheckOutbound(t, w, n) == [] && FindPayment(t, w, n).None? && |w.rows| == |t.steps| && w.final == |w.account|
  {
    var at := FindOnChain(w.account, n, Amount(t, n));
    if at.Some? {
      assert PaidAt(w, n, at.value);
    }
  }

  lemma SendIs(t: Terms, w: World, n: nat)
    requires AtOwnStep(t, w, n)
    ensures |w.rows| == |t.steps| && ExecAll(w, EnsureSent(t, w, n, READY)) == SentStep(t, w, n)
  {
    StepIsUnsent(t, w, n);
    var row, e := w.rows[n - 1], NextEnvelope(t, w, n);
    var intent := row.(envelope := Some(e), txId := Some(e), out := Intent);
    var f, g, h := Save(n, intent), Submit(e, true), Save(n, intent.(out := Submitted));
    assert FreshEnvelope(t, w, n) == e;
    hide Inv, FindPayment;
    assert EnsureSent(t, w, n, READY) == [f] + ([g] + [h]);
    ExecAllAppend(w, [f], [g] + [h]);
    ExecOne(w, f);
    ExecTwo(Exec(w, f), g, h);
  }

  lemma OwnStepIs(t: Terms, w: World, n: nat)
    requires AtOwnStep(t, w, n)
    ensures IsStep(t, n) && |w.rows| == |t.steps| && w.final == |w.account|
    ensures PassScript(t, w.rows) == [LookOut(n)] + ([Send(n)] + ([LookInOnceSent(n)] + [Clock(n)]))
  {
  }

  /** One pass sends it. */
  lemma StepGoesOut(t: Terms, c: Config, w: World, n: nat)
    requires AtOwnStep(t, w, n) && Reaches(t, c, Config(w, [], []))
    ensures |w.rows| == |t.steps| && Reaches(t, c, Config(SentStep(t, w, n), [], []))
  {
    var rest := [LookInOnceSent(n)] + [Clock(n)];
    OwnStepIs(t, w, n);
    StepIsUnsent(t, w, n);
    SendIs(t, w, n);
    hide AtOwnStep, Reaches, PassScript, CheckOutbound, EnsureSent, SentStep, Forgets;
    ReachAdvance(t, c, w);
    StillCallReaches(t, c, w, LookOut(n), [Send(n)] + rest, READY);
    StillCallReaches(t, c, w, Send(n), rest, READY);
    ReachCrash(t, c, Config(SentStep(t, w, n), [], ScriptAfter(t, w, Send(n), rest, READY)));
  }

  lemma ReachAdvance(t: Terms, c: Config, w: World)
    requires Reaches(t, c, Config(w, [], [])) && |w.rows| == |t.steps|
    ensures Reaches(t, c, Config(w, [], PassScript(t, w.rows)))
  {
    hide Reaches, PassScript;
    ReachStep(t, c, Config(w, [], []), Advance);
  }

  lemma ReachCrash(t: Terms, c: Config, d: Config)
    requires Reaches(t, c, d) && |d.world.rows| == |t.steps|
    ensures Reaches(t, c, Config(d.world, [], []))
  {
    hide Reaches;
    ReachStep(t, c, d, Crash);
  }

  lemma ShallowPays(t: Terms, w: World, n: nat)
    requires AtOwnStep(t, w, n)
    ensures |w.rows| == |t.steps|
    ensures forall m: nat, i: nat :: PaidAt(PaidShallow(t, w, n), m, i) <==> PaidAt(w, m, i) || (m == n && i == |w.account|)
  {
  }

  lemma ShallowMoves(t: Terms, w: World, n: nat)
    requires AtOwnStep(t, w, n)
    ensures |w.rows| == |t.steps|
    ensures var x, v := SentStep(t, w, n), PaidShallow(t, w, n);
            Moves(t, x, v) && Moved(x, v) == v
  {
    var x, v := SentStep(t, w, n), PaidShallow(t, w, n);
    ShallowPays(t, w, n);
    assert AccountFits(t, w) && InboundFits(w) && PoolFits(w) && w.final == |w.account|;
    assert v.tip >= w.tip;
    hide Inv;
    forall m: nat
      ensures OutSettled(t, x, m) ==> OutSettled(t, v, m)
      ensures InSettled(t, x, m) ==> InSettled(t, v, m) && v.inbound[m] == x.inbound[m]
    {
      if OutSettled(t, x, m) {
        var i: nat :| PaidAt(x, m, i);
        assert PaidAt(v, m, i);
      }
    }
  }

  lemma ShallowIs(t: Terms, w: World, n: nat)
    requires AtOwnStep(t, w, n)
    ensures |w.rows| == |t.steps|
    ensures var v := PaidShallow(t, w, n);
            && v.final == |v.account| && |v.rows| == |t.steps| && FirstOpen(v.rows, 1) == n && !InSettled(t, v, n)
            && PassScript(t, v.rows) == [LookOut(n)] + ([Send(n)] + ([LookInOnceSent(n)] + [Clock(n)]))
            && CheckOutbound(t, v, n) == [Save(n, v.rows[n - 1].(out := Settled))]
  {
    var v := PaidShallow(t, w, n);
    assert AppliedOn(v, NextEnvelope(t, w, n)) && !StepDone(v.rows, n);
    forall m | 1 <= m < n
      ensures StepDone(v.rows, m)
    {
      assert StepDone(w.rows, m);
    }
  }

  /** The next pass sees the peer's leg and does not take it for settled. */
  lemma BlameIsReached(t: Terms, c: Config, w: World, n: nat)
    requires AtOwnStep(t, w, n) && Reaches(t, c, Config(w, [], []))
    ensures |w.rows| == |t.steps| && Reaches(t, c, Config(Blaming(t, w, n), [], []))
  {
    var rest := [LookInOnceSent(n)] + [Clock(n)];
    StepGoesOut(t, c, w, n);
    ShallowMoves(t, w, n);
    ShallowIs(t, w, n);
    var v := PaidShallow(t, w, n);
    var y := v.(rows := v.rows[n - 1 := v.rows[n - 1].(out := Settled)]);
    ReachMoved(t, c, SentStep(t, w, n), v);
    LastCalls(t, w, n);
    ExecOne(v, Save(n, v.rows[n - 1].(out := Settled)));
    hide AtOwnStep, Reaches, PassScript, CheckOutbound, CheckInbound, UpdateTiming, EnsureSent, SentStep, PaidShallow, Blaming;
    ReachAdvance(t, c, v);
    StillCallReaches(t, c, v, LookOut(n), [Send(n)] + rest, READY);
    StillCallReaches(t, c, y, Send(n), rest, READY);
    StillCallReaches(t, c, y, LookInOnceSent(n), [Clock(n)], READY);
    assert [Clock(n)] + [] == [Clock(n)];
    StillCallReaches(t, c, Blaming(t, w, n), Clock(n), [], READY);
  }

  lemma ReachMoved(t: Terms, c: Config, x: World, v: World)
    requires Reaches(t, c, Config(x, [], [])) && |x.rows| == |t.steps| && Moves(t, x, v) && Moved(x, v) == v
    ensures Reaches(t, c, Config(v, [], []))
  {
    hide Reaches, Moves;
    ReachStep(t, c, Config(x, [], []), Outside(v));
  }

  lemma LastCalls(t: Terms, w: World, n: nat)
    requires AtOwnStep(t, w, n)
    ensures |w.rows| == |t.steps|
    ensures var v, z := PaidShallow(t, w, n), Blaming(t, w, n);
            var y := v.(rows := v.rows[n - 1 := v.rows[n - 1].(out := Settled)]);
            && EnsureSent(t, y, n, READY) == [] && ExecAll(y, CheckInbound(t, y, n, READY)) == z
            && UpdateTiming(t, z, n) == [] && |z.rows| == |t.steps|
  {
    ShallowIs(t, w, n);
    var v, z := PaidShallow(t, w, n), Blaming(t, w, n);
    var y := v.(rows := v.rows[n - 1 := v.rows[n - 1].(out := Settled)]);
    assert !InSettled(t, y, n);
    ExecOne(y, Save(n, y.rows[n - 1].(inSeen := true)));
  }

  // ----- What both sides make of it -----------------------------------------------------------------------------

  function SignedBy(t: Terms, me: Party): Signed {
    Signed(|t.steps|, t.acceptedHeight, t.confirmDepth, if me == Maker then t.opens else !t.opens,
           if me == Maker then t.sendsLapse else !t.sendsLapse)
  }

  /** What an XLM sender's chains show. */
  ghost function FactsOf(t: Terms, w: World, me: Party): (f: Facts)
    ensures FactsFit(SignedBy(t, me), f)
  {
    var own := seq(|t.steps|, i requires 0 <= i => if Paid(w, i + 1) then Some(FINAL_DEPTH) else None);
    var peers := seq(|t.steps|, i requires 0 <= i => DepthOfPeers(t, w, i + 1));
    if me == Maker then Facts(own, peers, w.tip) else Facts(peers, own, w.tip)
  }

  lemma FactsAreSame(t: Terms, w: World, me: Party)
    requires !t.sendsLapse
    ensures SameChains(t, w, me, SignedBy(t, me), FactsOf(t, w, me))
  {
    forall n | 1 <= n <= |t.steps|
      ensures SameStep(t, w, me, FactsOf(t, w, me), n)
    {
      if Paid(w, n) {
        var i: nat :| PaidAt(w, n, i);
      }
    }
  }

  lemma {:induction false} SettledStepsReach(s: Signed, f: Facts, m: nat, n: nat, base: int)
    requires FactsFit(s, f) && 1 <= m <= n + 1 && n <= s.count
    requires forall k :: m <= k <= n ==> MakerSettled(s, f, k) && TakerSettled(s, f, k)
    ensures VerdictFrom(s, f, m, base).settledSteps >= n
    decreases n + 1 - m
  {
    if m <= n {
      SettledStepsReach(s, f, m + 1, n, LapseHeight(s, f, m));
    } else {
      NeverFewer(s, f, m, base);
    }
  }

  lemma NeverFewer(s: Signed, f: Facts, n: nat, base: int)
    requires FactsFit(s, f) && 1 <= n <= s.count + 1
    ensures VerdictFrom(s, f, n, base).settledSteps >= n - 1
    decreases s.count - n
  {
  }

  lemma BlamingIs(t: Terms, w: World, n: nat)
    requires AtOwnStep(t, w, n)
    ensures |w.rows| == |t.steps|
    ensures var z := Blaming(t, w, n);
            && FirstOpen(z.rows, 1) == n && Delinquent(true, z.rows, z.tip) && !InSettled(t, z, n)
            && Paid(z, n) && n in z.inbound && DepthOfPeers(t, z, n) == Some(SignedDepth(t))
            && (forall k :: 1 <= k < n ==> StepDone(z.rows, k))
  {
    var z := Blaming(t, w, n);
    assert PaidAt(z, n, |w.account|) && !StepDone(z.rows, n);
    forall k | 1 <= k < n
      ensures StepDone(z.rows, k)
    {
      assert StepDone(w.rows, k);
    }
  }

  /** Every step up to the blamed one is settled in public. */
  lemma BlamedStepIsSettled(t: Terms, w: World, n: nat, me: Party, k: nat)
    requires AtOwnStep(t, w, n) && |w.rows| == |t.steps| && Inv(t, Blaming(t, w, n)) && 1 <= k <= n
    ensures MakerSettled(SignedBy(t, me), FactsOf(t, Blaming(t, w, n), me), k)
    ensures TakerSettled(SignedBy(t, me), FactsOf(t, Blaming(t, w, n), me), k)
  {
    var z, s, f := Blaming(t, w, n), SignedBy(t, me), FactsOf(t, Blaming(t, w, n), me);
    BlamingIs(t, w, n);
    FactsAreSame(t, z, me);
    if k < n {
      assert StepDone(z.rows, k) && StoredFits(t, z, k);
      hide Inv, Blaming, FactsOf, AtOwnStep;
      SettlementIsPublic(t, z, me, s, f, k);
    } else {
      hide Inv, Blaming, AtOwnStep;
      assert SameStep(t, z, me, f, n);
    }
  }

  /** There this node holds its peer delinquent over a step every bystander counts as settled. */
  lemma BlamesAlone(t: Terms, w: World, n: nat, me: Party)
    requires AtOwnStep(t, w, n) && |w.rows| == |t.steps| && Inv(t, Blaming(t, w, n))
    ensures var z, s, f := Blaming(t, w, n), SignedBy(t, me), FactsOf(t, Blaming(t, w, n), me);
            && BlamesPeer(t, z, true) && SameChains(t, z, me, s, f)
            && VerdictFrom(s, f, 1, s.acceptedHeight).settledSteps >= FirstOpen(z.rows, 1)
  {
    var z, s, f := Blaming(t, w, n), SignedBy(t, me), FactsOf(t, Blaming(t, w, n), me);
    BlamingIs(t, w, n);
    FactsAreSame(t, z, me);
    assert IsStep(t, n);
    forall k | 1 <= k <= n
      ensures MakerSettled(s, f, k) && TakerSettled(s, f, k)
    {
      BlamedStepIsSettled(t, w, n, me, k);
    }
    hide Inv, Blaming, FactsOf, AtOwnStep, MakerSettled, TakerSettled, SameChains;
    SettledStepsReach(s, f, 1, n, s.acceptedHeight);
  }

  // ----- Coming to that step ------------------------------------------------------------------------------------

  /** Step 1 complete and step 2 timed. */
  function SecondOpen(t: Terms): World
    requires |t.steps| >= 2
  {
    var w := BothKnown(t);
    w.(rows := FirstRow(t, DoneRow(t).(completed := w.tip))[1 := FreshRows(t)[1].(deadline := w.tip + StepBudget(t))])
  }

  lemma SecondOpenIsReached(t: Terms)
    requires TermsOk(t) && |t.steps| >= 2
    ensures Reaches(t, Accepted(t), Config(SecondOpen(t), [], []))
  {
    var c, w := Accepted(t), BothKnown(t);
    FirstSendGoesOut(t);
    BothCanBePaid(t);
    ReachMoved(t, c, FirstSent(t), BothPaid(t));
    PassComesToClock(t, c);
    HalfTimedIsLost(t);
    var f, g := Save(1, DoneRow(t).(completed := w.tip)), Save(2, FreshRows(t)[1].(deadline := w.tip + StepBudget(t)));
    ExecTwo(w, f, g);
    assert Exec(HalfTimed(t), g) == SecondOpen(t) && [Clock(1)] + [] == [Clock(1)];
    assert |w.rows| == |t.steps| && w.final == |w.account|;
    hide Reaches, HalfTimed, BothKnown, SecondOpen, Accepted, CallPlan, Lost;
    StillCallReaches(t, c, w, Clock(1), [], READY);
  }

  /** The first step this node opens, and the state a run comes to it in. */
  function FirstOwn(t: Terms): nat { if t.opens then 1 else 2 }

  function OwnStepOpen(t: Terms): World
    requires OpensSomeStep(t)
  {
    if t.opens then Accepted(t).world else SecondOpen(t)
  }

  lemma OwnStepIsReached(t: Terms)
    requires TermsOk(t) && SignedTerms(t) && OpensSomeStep(t) && !t.sendsLapse && !FloorInsideTerms(t)
    ensures Reaches(t, Accepted(t), Config(OwnStepOpen(t), [], [])) && AtOwnStep(t, OwnStepOpen(t), FirstOwn(t))
  {
    var w := OwnStepOpen(t);
    AcceptedIsFresh(t);
    if t.opens {
      ReachNow(t, Accepted(t));
    } else {
      SecondOpenIsReached(t);
    }
    ReachedFrom(t, Accepted(t), Config(w, [], []));
    hide Reaches, Inv;
    OwnStepShape(t);
  }

  lemma OwnStepShape(t: Terms)
    requires SignedTerms(t) && OpensSomeStep(t)
    ensures var w, n := OwnStepOpen(t), FirstOwn(t);
            && |w.rows| == |t.steps| && FirstOpen(w.rows, 1) == n && w.pool == [] && !Paid(w, n) && n !in w.inbound
            && w.rows[n - 1] == Row(Pending, None, None, false, false, 0, w.rows[n - 1].deadline) && w.rows[n - 1].deadline != 0
  {
    var w, n := OwnStepOpen(t), FirstOwn(t);
    assert forall i: nat :: !PaidAt(w, n, i);
    if !t.opens {
      assert StepDone(w.rows, 1) && !StepDone(w.rows, 2);
    }
  }

  /**
   A node that sends XLM, opens a step and waits for more depth than the trade signed comes, by a run from
   acceptance, to hold its peer delinquent over a step every bystander already counts as settled.
   */
  lemma DeeperFloorBlamesAlone(t: Terms, me: Party)
    requires TermsOk(t) && SignedTerms(t) && OpensSomeStep(t) && !t.sendsLapse && !FloorInsideTerms(t)
    ensures exists w, s, f ::
              && Reached(t, w) && BlamesPeer(t, w, true) && SameChains(t, w, me, s, f)
              && VerdictFrom(s, f, 1, s.acceptedHeight).settledSteps >= FirstOpen(w.rows, 1)
  {
    var w, n := OwnStepOpen(t), FirstOwn(t);
    AcceptedIsFresh(t);
    OwnStepIsReached(t);
    hide Reaches, AtOwnStep, OwnStepOpen, Inv, Accepted, Blaming, FactsOf, VerdictFrom, SameChains, Delinquent, AcceptedFresh;
    BlameIsReached(t, Accepted(t), w, n);
    ReachedFrom(t, Accepted(t), Config(Blaming(t, w, n), [], []));
    BlamesAlone(t, w, n, me);
    var z, s, f := Blaming(t, w, n), SignedBy(t, me), FactsOf(t, Blaming(t, w, n), me);
    assert Reached(t, z) && BlamesPeer(t, z, true) && SameChains(t, z, me, s, f);
  }

  /**
   The two verdicts agree in every state a run from acceptance reaches exactly when this node sends LAPSE,
   or its own floor asks for no more depth than the trade signed, or it opens no step. A floor above the
   signed depth guards the LAPSE leg alone, so it separates the verdicts only where that leg is the peer's.
   */
  lemma BlameIsPublicIff(t: Terms, me: Party)
    requires TermsOk(t) && SignedTerms(t)
    ensures BlameAlwaysPublic(t, me) <==> t.sendsLapse || FloorInsideTerms(t) || !OpensSomeStep(t)
  {
    OpensIffOpensSomeStep(t);
    hide Inv, VerdictFrom, Reached;
    if t.sendsLapse || FloorInsideTerms(t) || !OpensSomeStep(t) {
      forall w, s, f, stalled | Reached(t, w) && BlamesPeer(t, w, stalled) && SameChains(t, w, me, s, f)
        ensures VerdictFrom(s, f, 1, s.acceptedHeight) == Verdict(FirstOpen(w.rows, 1) - 1, s.count, Some(Peer(me)))
      {
        BlamedStepIsOwn(t, w, stalled);
        LocalBlameIsPublic(t, w, me, s, f, stalled);
      }
    } else {
      DeeperFloorBlamesAlone(t, me);
    }
  }

  lemma BlamedStepIsOwn(t: Terms, w: World, stalled: bool)
    requires BlamesPeer(t, w, stalled)
    ensures exists n: nat :: IsStep(t, n) && MovesFirst(n, t.opens)
  {
    BlameIsOverOwnStep(t, w, stalled);
    assert IsStep(t, FirstOpen(w.rows, 1));
  }
}
