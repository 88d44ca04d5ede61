/** Recovery from the chains alone, and why one call of the send path must see one view of the chain. */
module SwapLimits {
  import opened Collections
  import opened Schedule
  import opened SwapModel
  import opened SwapSafety
  import opened SwapPlans
  import opened SwapHonest

  /**
   A row that has lost everything is rebuilt from the two ledgers: after one startup pass it says
   settled, on each side, exactly when the chains do. A copy of the payment still in the mempool
   would be read first, so there must be none.
   */
  lemma LostRowRecovered(t: Terms, w: World, n: nat, a: Answers)
    requires |w.rows| == |t.steps| && IsStep(t, n) && AccountFits(t, w) && PaidOnce(w)
    requires forall e :: e in w.released && e.step == n ==> e.amount == Amount(t, n)
    requires w.rows[n - 1] == Row(Pending, None, None, false, false, 0, 0)
    requires !Shadowed(t, a) && forall x :: x in Visible(t, w) && x.Pay? ==> x.env.step != n
    ensures var v := ExecAll(w, ReconcileStep(t, w, n, a));
            && |v.rows| == |w.rows|
            && (v.rows[n - 1].out == Settled <==> OutSettled(t, w, n))
            && (v.rows[n - 1].inSettled <==> InSettled(t, w, n))
            && v.released == w.released
  {
    FoundIsSettled(t, w, n);
    hide AccountFits, FindPayment, OutSettled;
    var found := FindPayment(t, w, n);
    var r := if found.Some? then RecordOutbound(t, w, n, found.value.env, found.value.depth) else [];
    var v := ExecAll(w, r);
    if found.Some? {
      ExecOne(w, r[0]);
    }
    assert CheckOutbound(t, w, n) == [];
    assert ReconcileStep(t, w, n, a) == r + CheckInbound(t, v, n, a);
    ExecAllAppend(w, r, CheckInbound(t, v, n, a));
    InboundRecovered(t, v, n, a);
    assert InSettled(t, v, n) == InSettled(t, w, n);
  }

  /** The lookup's answer and its depth say exactly whether the step's own leg is settled. */
  lemma FoundIsSettled(t: Terms, w: World, n: nat)
    requires IsStep(t, n) && AccountFits(t, w) && PaidOnce(w)
    requires forall e :: e in w.released && e.step == n ==> e.amount == Amount(t, n)
    requires forall x :: x in Visible(t, w) && x.Pay? ==> x.env.step != n
    ensures var found := FindPayment(t, w, n);
            OutSettled(t, w, n) <==> found.Some? && found.value.depth >= RequiredDepth(t, t.sendsLapse)
  {
    assert FindInPool(Visible(t, w), n, Amount(t, n)).None?;
    var at := FindOnChain(w.account, n, Amount(t, n));
    if at.Some? {
      assert PaidAt(w, n, at.value);
    }
    if OutSettled(t, w, n) {
      var i: nat :| PaidAt(w, n, i)
        && Depth(t.sendsLapse, w.tip, w.account[i].height) >= RequiredDepth(t, t.sendsLapse);
      assert w.account[i].tx.env in w.released;
    }
  }

  lemma InboundRecovered(t: Terms, w: World, n: nat, a: Answers)
    requires |w.rows| == |t.steps| && IsStep(t, n) && !Shadowed(t, a)
    requires !w.rows[n - 1].inSettled && !w.rows[n - 1].inSeen
    ensures var v := ExecAll(w, CheckInbound(t, w, n, a));
            && |v.rows| == |w.rows| && v.released == w.released && v.rows[n - 1].out == w.rows[n - 1].out
            && (v.rows[n - 1].inSettled <==> InSettled(t, w, n))
  {
    var i := CheckInbound(t, w, n, a);
    if i != [] {
      ExecOne(w, i[0]);
    }
  }

  // ----- What the exactly-once result assumes ------------------------------------------------------

  /** A one-step trade, LAPSE going out, this node opening. */
  const ONE_STEP: Terms := Terms([Step(1, 1)], true, true, 2, 2, 0)

  const FIRST: Envelope := Envelope(1, 1, 1)
  const SECOND: Envelope := Envelope(1, 2, 1)

  /** The first envelope has been sent, nothing has been applied, and the mempool has dropped it. */
  const WAITING: World :=
    World([], 0, 5, {FIRST}, [], map[], [Row(Submitted, Some(FIRST), Some(FIRST), false, false, 0, 12)])

  const QUIET: Answers := Answers(false, false, true, false)

  lemma WaitingInv()
    ensures Inv(ONE_STEP, WAITING)
  {
    assert forall n: nat, i: nat :: !PaidAt(WAITING, n, i);
    assert EnvelopeFits(ONE_STEP, WAITING, FIRST);
    assert StoredFits(ONE_STEP, WAITING, 1);
  }

  /**
   One view per call. Were the payment lookup to read the chain before a block and the rejection
   check to read it after, the block could carry the very payment being looked for: the lookup finds
   nothing, the nonce reads as spent, and the rebuilt envelope pays the step a second time.
   */
  lemma MixedViewsPayTwice()
    ensures var later := WAITING.(account := [Applied(Pay(FIRST), 6)], tip := 6);
            var rebuilt := ExecAll(later, Resend(ONE_STEP, later, 1, later.rows[0], QUIET));
            var end := rebuilt.(account := rebuilt.account + [Applied(Pay(SECOND), 7)], final := 2, tip := 7);
            && Inv(ONE_STEP, WAITING) && FindPayment(ONE_STEP, WAITING, 1).None?
            && Moves(ONE_STEP, WAITING, later) && SequenceConsumed(later, FIRST)
            && Moves(ONE_STEP, rebuilt, end) && PaidAt(end, 1, 0) && PaidAt(end, 1, 1)
  {
    WaitingInv();
    var later := WAITING.(account := [Applied(Pay(FIRST), 6)], tip := 6);
    var dead := later.rows[0].(out := Dead, envelope := None);
    var intent := dead.(envelope := Some(SECOND), txId := Some(SECOND), out := Intent);
    var plan := Resend(ONE_STEP, later, 1, later.rows[0], QUIET);
    assert FreshEnvelope(ONE_STEP, later, 1) == SECOND;
    assert plan == [Submit(FIRST, false), Save(1, dead), Save(1, intent), Submit(SECOND, false), Save(1, intent)];
    RunFive(later, plan);
    var rebuilt := ExecAll(later, plan);
    assert rebuilt.released == {FIRST, SECOND} && rebuilt.account == later.account && rebuilt.inbound == map[];
    var end := rebuilt.(account := rebuilt.account + [Applied(Pay(SECOND), 7)], final := 2, tip := 7);
  }

  lemma RunFive(w: World, fs: seq<Effect>)
    requires |fs| == 5
    ensures ExecAll(w, fs) == Exec(Exec(Exec(Exec(Exec(w, fs[0]), fs[1]), fs[2]), fs[3]), fs[4])
  {
    var w1 := Exec(w, fs[0]);
    var w2 := Exec(w1, fs[1]);
    var w3 := Exec(w2, fs[2]);
    var w4 := Exec(w3, fs[3]);
    assert fs[1..][1..] == fs[2..] && fs[2..][1..] == fs[3..] && fs[3..][1..] == fs[4..] && fs[4..][1..] == [];
    assert ExecAll(w4, fs[4..]) == Exec(w4, fs[4]);
    assert ExecAll(w3, fs[3..]) == ExecAll(w4, fs[4..]);
    assert ExecAll(w2, fs[2..]) == ExecAll(w3, fs[3..]);
    assert ExecAll(w1, fs[1..]) == ExecAll(w2, fs[2..]);
  }
}
