/** Taking turns on settling chains is always possible, and what it asks of stored nonces is needed. */
module HonestLimits {
  import opened Collections
  import opened Schedule
  import opened SwapModel
  import opened SwapSafety
  import opened SwapPlans
  import opened SwapHonest
  import opened HonestTrade

  // ----- The chains can always settle ------------------------------------------------------------------

  /** A side after its pass, or while it watches: at most one payment waits, and it is the next one. */
  ghost predicate Settleable(t: Terms, w: World) {
    && Inv(t, w) && w.final == |w.account| && |w.pool| <= 1
    && (|w.pool| == 1 ==> w.pool[0].Pay? && w.pool[0].env.seqNo == |w.account| + 1 && !Paid(w, w.pool[0].env.step))
    && (forall n :: 1 <= n <= |w.rows| ==> NonceReached(w, n))
  }

  /** Includes what waits at the current height, and lets `depth` more blocks pass. */
  function Mined(w: World, peer: World, depth: nat): World
    requires |w.pool| == 1 ==> w.pool[0].Pay?
    requires |peer.pool| == 1 ==> peer.pool[0].Pay?
  {
    var account := if |w.pool| == 1 then w.account + [Applied(w.pool[0], w.tip)] else w.account;
    w.(account := account, final := |account|, tip := w.tip + depth, pool := [],
       inbound := if |peer.pool| == 1 then w.inbound[peer.pool[0].env.step := peer.tip] else w.inbound)
  }

  lemma MinedPays(t: Terms, w: World, peer: World, depth: nat)
    requires Settleable(t, w) && |peer.pool| == 1 ==> peer.pool[0].Pay?
    requires |w.pool| == 1 ==> w.pool[0].Pay?
    requires |peer.pool| == 1 ==> peer.pool[0].Pay?
    requires |w.pool| <= 1
    ensures var v := Mined(w, peer, depth);
            && (forall n: nat, i: nat :: PaidAt(w, n, i) ==> PaidAt(v, n, i) && v.account[i].height == w.account[i].height)
            && (forall n: nat, i: nat :: PaidAt(v, n, i) ==>
                  PaidAt(w, n, i) || (|w.pool| == 1 && i == |w.account| && n == w.pool[0].env.step))
            && (|w.pool| == 1 ==> PaidAt(v, w.pool[0].env.step, |w.account|) && v.account[|w.account|].height == w.tip)
  {
  }

  lemma MinedAccountFits(t: Terms, w: World, peer: World, depth: nat)
    requires Settleable(t, w) && (|peer.pool| == 1 ==> peer.pool[0].Pay?)
    ensures AccountFits(t, Mined(w, peer, depth)) && PoolFits(Mined(w, peer, depth))
  {
    assert AccountFits(t, w) && PoolFits(w);
    hide Inv, NonceReached, Paid;
  }

  lemma MinedStaysSettled(t: Terms, w: World, peer: World, depth: nat)
    requires Settleable(t, w) && (|peer.pool| == 1 ==> peer.pool[0].Pay? && peer.pool[0].env.step !in w.inbound)
    ensures var v := Mined(w, peer, depth);
            && (forall n: nat :: OutSettled(t, w, n) ==> OutSettled(t, v, n))
            && (forall n: nat :: InSettled(t, w, n) ==> InSettled(t, v, n) && v.inbound[n] == w.inbound[n])
  {
    var v := Mined(w, peer, depth);
    MinedPays(t, w, peer, depth);
    hide Inv, NonceReached, Paid;
    forall n: nat | OutSettled(t, w, n)
      ensures OutSettled(t, v, n)
    {
      var i: nat :| PaidAt(w, n, i)
        && Depth(t.sendsLapse, w.tip, w.account[i].height) >= RequiredDepth(t, t.sendsLapse);
      assert PaidAt(v, n, i);
    }
  }

  lemma MinedMoves(t: Terms, w: World, peer: World, depth: nat)
    requires Settleable(t, w) && (|peer.pool| == 1 ==> peer.pool[0].Pay? && peer.pool[0].env.step !in w.inbound)
    requires w.tip == peer.tip
    ensures Moves(t, w, Mined(w, peer, depth)) && Included(w, Mined(w, peer, depth))
  {
    MinedAccountFits(t, w, peer, depth);
    MinedStaysSettled(t, w, peer, depth);
    assert InboundFits(w) && w.final == |w.account|;
    hide Inv, NonceReached, Paid, AccountFits, PoolFits, OutSettled, InSettled;
  }

  lemma MinedIsCalm(t: Terms, w: World, peer: World, depth: nat)
    requires Settleable(t, w) && (|peer.pool| == 1 ==> peer.pool[0].Pay?)
    requires w.tip == peer.tip && depth >= RequiredDepth(t, true)
    ensures Calm(t, Mined(w, peer, depth))
  {
    var v := Mined(w, peer, depth);
    MinedPays(t, w, peer, depth);
    assert InboundFits(w) && AccountFits(t, w);
    hide Inv;
    forall n: nat, i: nat | PaidAt(v, n, i)
      ensures Depth(t.sendsLapse, v.tip, v.account[i].height) >= RequiredDepth(t, t.sendsLapse)
    {
    }
    forall n: nat | n in v.inbound
      ensures InSettled(t, v, n)
    {
      assert v.inbound[n] <= w.tip;
    }
    forall n | 1 <= n <= |v.rows|
      ensures NonceReached(v, n)
    {
      assert NonceReached(w, n);
      if Paid(w, n) {
        var i: nat :| PaidAt(w, n, i);
        assert PaidAt(v, n, i);
      }
    }
  }

  lemma MinedIsLinked(s: Terms, t: Terms, w: World, peer: World, depth: nat)
    requires Settleable(s, w) && Settleable(t, peer) && Linked(w, peer)
    ensures Linked(Mined(w, peer, depth), Mined(peer, w, depth))
  {
    var v, u := Mined(w, peer, depth), Mined(peer, w, depth);
    MinedPays(t, peer, w, depth);
    assert |peer.pool| == 1 ==> v.inbound == w.inbound[peer.pool[0].env.step := peer.tip];
    assert |peer.pool| != 1 ==> v.inbound == w.inbound;
    assert v.tip == u.tip;
    hide Settleable, Mined;
    forall n: nat, i: nat | PaidAt(u, n, i)
      ensures n in v.inbound && v.inbound[n] == u.account[i].height
    {
      if PaidAt(peer, n, i) {
        assert Paid(peer, n);
      }
    }
    forall n: nat | n in v.inbound
      ensures Paid(u, n)
    {
      if n in w.inbound {
        var i: nat :| PaidAt(peer, n, i);
        assert PaidAt(u, n, i);
      } else {
        assert PaidAt(u, n, |peer.account|);
      }
    }
  }

  /** The step a pass worked on: what it stores is the next payment, or nothing, unless the leg is paid. */
  lemma WorkedNonceIsReached(t: Terms, w: World, v: World, n: nat)
    requires Inv(t, v) && IsStep(t, n) && |w.rows| == |t.steps| == |v.rows| && StepWorked(t, w, v, n)
    requires v.account == w.account && v.inbound == w.inbound
    ensures NonceReached(v, n)
  {
    SamePayments(w, v);
    assert StoredFits(t, v, n);
    hide Inv, Paid, ReleasedFits;
    if v.rows[n - 1].envelope.Some? {
      assert Gate(t, v, n);
    }
  }

  lemma WorkedPool(t: Terms, w: World, v: World, n: nat)
    requires IsStep(t, n) && |w.rows| == |t.steps| == |v.rows| && StepWorked(t, w, v, n) && v.account == w.account
    ensures |v.pool| <= 1
    ensures |v.pool| == 1 ==> v.pool[0].Pay? && v.pool[0].env.seqNo == |v.account| + 1 && !Paid(v, v.pool[0].env.step)
  {
    SamePayments(w, v);
    hide Paid;
  }

  lemma NoncesStayReached(w: World, v: World, n: nat)
    requires 1 <= n <= |w.rows| && OnlyStep(w, v, n) && NonceReached(v, n)
    requires forall m :: 1 <= m <= |w.rows| ==> NonceReached(w, m)
    ensures forall m :: 1 <= m <= |v.rows| ==> NonceReached(v, m)
  {
    SamePayments(w, v);
    hide Paid;
    forall m | 1 <= m <= |v.rows|
      ensures NonceReached(v, m)
    {
      assert NonceReached(w, m);
      assert m != n ==> SameFlags(v.rows[m - 1], w.rows[m - 1]);
    }
  }

  lemma LinkedAfterPass(w: World, v: World, peer: World)
    requires Linked(w, peer) && v.tip == w.tip && v.inbound == w.inbound
    ensures Linked(v, peer)
  {
  }

  lemma PassLeavesSettleable(t: Terms, w: World, peer: World)
    requires SideOk(t, w, peer)
    ensures var v := ExecAll(w, FairPlan(t, w));
            Settleable(t, v) && Linked(v, peer) && v.tip == w.tip && v.inbound == w.inbound && v.account == w.account
  {
    CalmIsSettleable(t, w);
    assert |w.rows| == |t.steps|;
    hide Inv, Calm, FairPlan, StepWorked, NonceReached, Linked;
    if !Done(w) {
      PassWorks(t, w);
      var n, v := FirstOpen(w.rows, 1), ExecAll(w, FairPlan(t, w));
      WorkedNonceIsReached(t, w, v, n);
      WorkedPool(t, w, v, n);
      NoncesStayReached(w, v, n);
      LinkedAfterPass(w, v, peer);
    } else {
      DoneDoesNothing(t, w);
    }
  }

  lemma DoneDoesNothing(t: Terms, w: World)
    requires |w.rows| == |t.steps| && Done(w)
    ensures ExecAll(w, FairPlan(t, w)) == w
  {
  }

  lemma LinkedToPass(t: Terms, w: World, v: World, peer: World)
    requires Linked(peer, w) && v.account == w.account && v.tip == w.tip
    ensures Linked(peer, v)
  {
    SamePayments(w, v);
    assert forall m: nat, i: nat :: PaidAt(v, m, i) == PaidAt(w, m, i);
  }

  lemma CalmIsSettleable(t: Terms, w: World)
    requires Inv(t, w) && Calm(t, w)
    ensures Settleable(t, w)
  {
    hide Inv;
  }

  /** In every state two honest sides can be in, either may take its turn, and the chains may settle after it. */
  lemma TurnIsPossible(s: Terms, t: Terms, p: Pair) returns (q: Pair)
    requires JointOk(s, t, p)
    ensures |p.a.rows| == |s.steps| && TurnOf(s, t, p, q) && JointOk(s, t, q)
  {
    var v, depth := ExecAll(p.a, FairPlan(s, p.a)), RequiredDepth(s, true) + RequiredDepth(t, true);
    PassLeavesSettleable(s, p.a, p.b);
    LinkedToPass(s, p.a, v, p.b);
    CalmIsSettleable(t, p.b);
    assert v.pool != [] ==> v.pool[0].env.step !in p.b.inbound;
    assert p.b.pool == [];
    q := Pair(Mined(v, p.b, depth), Mined(p.b, v, depth));
    assert |p.a.rows| == |s.steps|;
    hide Inv, FairPlan, Calm, Linked, RequiredDepth, Moves, Included, Mined;
    MinedMoves(s, v, p.b, depth);
    MinedMoves(t, p.b, v, depth);
    MinedIsCalm(s, v, p.b, depth);
    MinedIsCalm(t, p.b, v, depth);
    MinedIsLinked(s, t, v, p.b, depth);
    MinedIsLinked(t, s, p.b, v, depth);
    TurnShrinks(s, t, p, q);
  }

  // ----- A stored envelope ahead of its nonce ------------------------------------------------------------------

  /**
   What settled chains rule out: an envelope stored with a nonce ahead of the account's next one. The
   chain refuses it, its nonce is not spent, so it is neither applied nor rebuilt, pass after pass.
   */
  lemma StoredAheadStalls(t: Terms, w: World, n: nat)
    requires Inv(t, w) && IsStep(t, n) && w.pool == [] && !Paid(w, n)
    requires w.rows[n - 1].envelope.Some? && w.rows[n - 1].envelope.value.seqNo > |w.account| + 1
    ensures var v := ExecAll(w, SendLeg(t, w, n, FairAnswers(w, n)));
            && OnlyStep(w, v, n) && v.pool == [] && v.rows[n - 1].envelope == w.rows[n - 1].envelope
            && v.rows[n - 1].out != Settled
            && forall e :: e in v.released ==> e in w.released || e == w.rows[n - 1].envelope.value
  {
    var a := FairAnswers(w, n);
    UnpaidIsNotFound(t, w, n);
    var row := w.rows[n - 1];
    hide Inv, FindPayment, CheckOutbound, SendLeg, AfterSend, Confirmations, EnsureSent;
    CheckOutboundTouches(t, w, n);
    SendLegUnfolds(t, w, n, a);
    var w1 := ExecAll(w, CheckOutbound(t, w, n));
    FindIgnoresRows(t, w, w1, n);
    SameConfirmations(t, w, w1);
    StalledSend(t, w1, n, a);
    StepThenStep(w, w1, AfterSend(t, w1, n, a), n);
  }

  /**
   A pass over an unpaid leg, with an unlocked wallet and a chain that takes the next nonce and no other, pays
   it exactly when the stored nonce, if there is one, is at most the account's next one.
   */
  lemma SendPaysIff(t: Terms, w: World, n: nat)
    requires Inv(t, w) && IsStep(t, n) && w.pool == [] && !Paid(w, n)
    ensures PaysNext(t, w, ExecAll(w, SendLeg(t, w, n, FairAnswers(w, n))), n)
            <==> (w.rows[n - 1].envelope.Some? ==> w.rows[n - 1].envelope.value.seqNo <= |w.account| + 1)
  {
    var a, row := FairAnswers(w, n), w.rows[n - 1];
    hide SendLeg, AfterSend, CheckOutbound, EnsureSent;
    if row.envelope.Some? && row.envelope.value.seqNo > |w.account| + 1 {
      StoredAheadStalls(t, w, n);
    } else {
      UnpaidIsNotFound(t, w, n);
      StoredAmount(t, w, n);
      hide Inv, FindPayment, Confirmations;
      CheckOutboundTouches(t, w, n);
      SendLegUnfolds(t, w, n, a);
      var w1 := ExecAll(w, CheckOutbound(t, w, n));
      FindIgnoresRows(t, w, w1, n);
      assert ReadyToPay(t, w1, n, a);
      AfterSendPays(t, w1, n, a);
      PaysThrough(t, w, w1, AfterSend(t, w1, n, a), n);
    }
  }

  lemma SameConfirmations(t: Terms, w: World, v: World)
    requires v.account == w.account && v.pool == w.pool && v.tip == w.tip
    ensures forall e :: Confirmations(t, v, e) == Confirmations(t, w, e)
  {
  }

  lemma UnpaidIsNotFound(t: Terms, w: World, n: nat)
    requires Inv(t, w) && IsStep(t, n) && w.pool == [] && !Paid(w, n)
    ensures FindPayment(t, w, n).None?
    ensures w.rows[n - 1].txId.Some? ==> Confirmations(t, w, w.rows[n - 1].txId.value).None?
    ensures w.rows[n - 1].out != Settled
    ensures w.rows[n - 1].envelope.Some? ==> HasLiveClaim(w.rows[n - 1])
  {
    TxIdOfStep(t, w, n);
    assert !OutSettled(t, w, n);
    assert FindInPool(Visible(t, w), n, Amount(t, n)).None?;
    var at := FindOnChain(w.account, n, Amount(t, n));
    if at.Some? {
      assert PaidAt(w, n, at.value);
    }
    var id := w.rows[n - 1].txId;
    if id.Some? {
      AppliedIsPaid(w, n, id.value);
    }
  }

  lemma AppliedIsPaid(w: World, n: nat, e: Envelope)
    requires e.step == n
    ensures AppliedOn(w, e) ==> Paid(w, n)
  {
    if AppliedOn(w, e) {
      assert PaidAt(w, n, e.seqNo - 1);
    }
  }

  lemma StalledSend(t: Terms, w: World, n: nat, a: Answers)
    requires IsStep(t, n) && |w.rows| == |t.steps| && w.pool == [] && FindPayment(t, w, n).None?
    requires HasLiveClaim(w.rows[n - 1]) && w.rows[n - 1].envelope.value.seqNo > |w.account| && !a.resent && a.unlocked
    requires w.rows[n - 1].txId.Some? ==> Confirmations(t, w, w.rows[n - 1].txId.value).None?
    ensures var v := AfterSend(t, w, n, a);
            && OnlyStep(w, v, n) && v.pool == [] && v.rows[n - 1].envelope == w.rows[n - 1].envelope
            && v.rows[n - 1].out != Settled && v.released == w.released + {w.rows[n - 1].envelope.value}
  {
    var row := w.rows[n - 1];
    var f, g := Submit(row.envelope.value, false), Save(n, row);
    assert EnsureSent(t, w, n, a) == [f] + [g];
    assert !StopsLocked(t, w, n, a);
    ExecTwo(w, f, g);
    var v := Exec(Exec(w, f), g);
    hide EnsureSent, StopsLocked, FindPayment, CheckOutbound;
    CheckOutboundTouches(t, v, n);
    assert row.txId.Some? ==> Confirmations(t, v, row.txId.value) == Confirmations(t, w, row.txId.value);
    StepThenStep(w, v, ExecAll(v, CheckOutbound(t, v, n)), n);
  }
}
