/**
 Two honest engines on one trade. Between turns the chains settle: what was submitted is included,
 what is included is buried deep enough for both sides, and nothing is left in a mempool.
 */
module SwapHonest {
  import opened Collections
  import opened Schedule
  import opened SwapModel
  import opened SwapSafety
  import opened SwapPlans

  // ----- One pass on a settled chain ------------------------------------------------------------------------

  /** Everything on this side's chains is deep and final, and no stored envelope waits for a nonce ahead of it. */
  ghost predicate Calm(t: Terms, w: World) {
    && w.final == |w.account| && w.pool == []
    && (forall n: nat, i: nat :: PaidAt(w, n, i) ==>
          Depth(t.sendsLapse, w.tip, w.account[i].height) >= RequiredDepth(t, t.sendsLapse))
    && (forall n: nat :: n in w.inbound ==> InSettled(t, w, n))
    && (forall n :: 1 <= n <= |w.rows| ==> NonceReached(w, n))
  }

  ghost predicate NonceReached(w: World, n: nat)
    requires 1 <= n <= |w.rows|
  {
    w.rows[n - 1].envelope.Some? && !Paid(w, n) ==> w.rows[n - 1].envelope.value.seqNo <= |w.account| + 1
  }

  /** An unlocked wallet, and a chain that takes a payment at the next nonce and no other. */
  function FairAnswers(w: World, n: nat): Answers
    requires 1 <= n <= |w.rows|
  {
    var stored := w.rows[n - 1].envelope;
    Answers(stored.Some? && stored.value.seqNo == |w.account| + 1, true, true, false)
  }

  function FairPlan(t: Terms, w: World): seq<Effect>
    requires |w.rows| == |t.steps|
  {
    var n := FirstOpen(w.rows, 1);
    if n == 0 then [] else AdvancePlan(t, w, FairAnswers(w, n))
  }

  ghost predicate SameFlags(r: Row, s: Row) {
    r.out == s.out && r.inSettled == s.inSettled && r.envelope == s.envelope && r.txId == s.txId
  }

  /** A pass over step `n` leaves the chains and the other steps' leg states alone. */
  ghost predicate OnlyStep(w: World, v: World, n: nat) {
    && v.account == w.account && v.final == w.final && v.tip == w.tip && v.inbound == w.inbound
    && |v.rows| == |w.rows|
    && forall m {:trigger v.rows[m]} :: 0 <= m < |w.rows| && m != n - 1 ==> SameFlags(v.rows[m], w.rows[m])
  }

  lemma SavesAt(w: World, n: nat, row: Row)
    requires 1 <= n <= |w.rows|
    ensures OnlyStep(w, Exec(w, Save(n, row)), n) && Exec(w, Save(n, row)).rows[n - 1] == row
  {
  }

  lemma ExecOne(w: World, f: Effect)
    ensures ExecAll(w, [f]) == Exec(w, f)
  {
    assert [f][1..] == [];
  }

  lemma ExecTwo(w: World, f: Effect, g: Effect)
    ensures ExecAll(w, [f] + [g]) == Exec(Exec(w, f), g)
  {
    ExecAllAppend(w, [f], [g]);
    ExecOne(w, f);
    ExecOne(Exec(w, f), g);
  }

  lemma SamePayments(w: World, v: World)
    requires v.account == w.account
    ensures forall n: nat :: Paid(v, n) == Paid(w, n)
  {
    assert forall n: nat, i: nat :: PaidAt(v, n, i) == PaidAt(w, n, i);
  }

  lemma UnpropagateTouches(t: Terms, w: World, n: nat, row: Row)
    requires 1 <= n <= |w.rows| && w.rows[n - 1] == row
    ensures var v := ExecAll(w, Unpropagate(t, w, n, row));
            OnlyStep(w, v, n) && SameFlags(v.rows[n - 1], row) && v.pool == w.pool && v.released == w.released
  {
    if row.completed != 0 {
      var f := Save(n, row.(completed := 0));
      if n < |w.rows| && RowOf(w, n + 1).deadline == row.completed + StepBudget(t) {
        ExecTwo(w, f, Save(n + 1, RowOf(w, n + 1).(deadline := 0)));
      } else {
        assert Unpropagate(t, w, n, row) == [f];
        ExecOne(w, f);
      }
    }
  }

  function LegAfter(t: Terms, w: World, row: Row): LegState {
    if row.txId.None? then row.out
    else
      match Confirmations(t, w, row.txId.value)
      case Some(depth) => if depth >= RequiredDepth(t, t.sendsLapse) then Settled else Submitted
      case None => Submitted
  }

  lemma CheckOutboundTouches(t: Terms, w: World, n: nat)
    requires IsStep(t, n) && |w.rows| == |t.steps|
    ensures var v := ExecAll(w, CheckOutbound(t, w, n));
            && OnlyStep(w, v, n) && v.pool == w.pool && v.released == w.released
            && var (r, s) := (w.rows[n - 1], v.rows[n - 1]);
            s.envelope == r.envelope && s.txId == r.txId && s.inSettled == r.inSettled && s.out == LegAfter(t, w, r)
  {
    var row := w.rows[n - 1];
    if row.txId.Some? {
      var depth := Confirmations(t, w, row.txId.value);
      hide Confirmations;
      if depth.None? {
        var down := row.(out := Submitted);
        var f := Save(n, down);
        SavesAt(w, n, down);
        ExecAllAppend(w, [f], Unpropagate(t, w, n, down));
        ExecOne(w, f);
        UnpropagateRereads(t, w, n, down);
        UnpropagateTouches(t, Exec(w, f), n, down);
      } else {
        ExecOne(w, RecordOutbound(t, w, n, row.txId.value, depth.value)[0]);
      }
    }
  }

  /** Looking at this node's own leg, when its payment, if applied, is deep. */
  lemma CheckOutboundLeaves(t: Terms, w: World, n: nat)
    requires IsStep(t, n) && |w.rows| == |t.steps|
    requires w.rows[n - 1].txId.Some? && AppliedOn(w, w.rows[n - 1].txId.value) ==>
               Depth(t.sendsLapse, w.tip, w.account[w.rows[n - 1].txId.value.seqNo - 1].height) >= RequiredDepth(t, t.sendsLapse)
    requires w.rows[n - 1].txId.Some? ==> Pay(w.rows[n - 1].txId.value) !in Visible(t, w)
    ensures var r := w.rows[n - 1];
            LegAfter(t, w, r) == if r.txId.None? then r.out else if AppliedOn(w, r.txId.value) then Settled else Submitted
  {
  }

  lemma UnpropagateRereads(t: Terms, w: World, n: nat, row: Row)
    requires 1 <= n <= |w.rows|
    ensures Unpropagate(t, Exec(w, Save(n, row)), n, row) == Unpropagate(t, w, n, row)
  {
  }

  /** A payment of this step anywhere on the account is the whole story: found, deep, at its own nonce. */
  lemma FoundWhenPaid(t: Terms, w: World, n: nat)
    requires Inv(t, w) && IsStep(t, n) && Calm(t, w)
    ensures Paid(w, n) <==> FindPayment(t, w, n).Some?
    ensures Paid(w, n) ==>
              && AppliedOn(w, FindPayment(t, w, n).value.env)
              && FindPayment(t, w, n).value.depth >= RequiredDepth(t, t.sendsLapse)
              && FindPayment(t, w, n).value.depth
                   == Depth(t.sendsLapse, w.tip, w.account[FindPayment(t, w, n).value.env.seqNo - 1].height)
  {
    assert FindInPool(Visible(t, w), n, Amount(t, n)).None?;
    var at := FindOnChain(w.account, n, Amount(t, n));
    if Paid(w, n) {
      var i: nat :| PaidAt(w, n, i);
      assert w.account[i].tx.env in w.released;
      assert EnvelopeFits(t, w, w.account[i].tx.env);
    }
    if at.Some? {
      assert PaidAt(w, n, at.value);
    }
  }

  lemma AppliedIsDeep(t: Terms, w: World, n: nat, e: Envelope)
    requires Calm(t, w) && e.step == n && AppliedOn(w, e)
    ensures Paid(w, n)
    ensures Depth(t.sendsLapse, w.tip, w.account[e.seqNo - 1].height) >= RequiredDepth(t, t.sendsLapse)
  {
    assert PaidAt(w, n, e.seqNo - 1);
  }

  lemma TxIdOfStep(t: Terms, w: World, n: nat)
    requires Inv(t, w) && IsStep(t, n)
    ensures w.rows[n - 1].txId.Some? ==> w.rows[n - 1].txId.value.step == n
    ensures w.rows[n - 1].out == Settled ==> OutSettled(t, w, n)
    ensures w.rows[n - 1].inSettled ==> InSettled(t, w, n)
    ensures w.rows[n - 1].envelope.Some? ==> w.rows[n - 1].out != Pending && w.rows[n - 1].out != Dead
    ensures w.rows[n - 1].envelope.Some? ==> w.rows[n - 1].envelope.value.step == n
  {
    assert StoredFits(t, w, n);
  }

  lemma FindIgnoresRows(t: Terms, w: World, v: World, n: nat)
    requires IsStep(t, n) && v.account == w.account && v.pool == w.pool && v.tip == w.tip
    ensures FindPayment(t, v, n) == FindPayment(t, w, n)
    ensures forall e :: AppliedOn(v, e) == AppliedOn(w, e)
  {
  }

  lemma EnsureSentRecords(t: Terms, w: World, n: nat, a: Answers)
    requires IsStep(t, n) && |w.rows| == |t.steps| && w.rows[n - 1].out != Settled && FindPayment(t, w, n).Some?
    ensures var found := FindPayment(t, w, n).value;
            EnsureSent(t, w, n, a) == RecordOutbound(t, w, n, found.env, found.depth)
    ensures !StopsLocked(t, w, n, a)
  {
  }

  function AfterSend(t: Terms, w: World, n: nat, a: Answers): World
    requires IsStep(t, n) && |w.rows| == |t.steps|
  {
    var w2 := ExecAll(w, EnsureSent(t, w, n, a));
    ExecAllRows(w, EnsureSent(t, w, n, a));
    if StopsLocked(t, w, n, a) then w2 else ExecAll(w2, CheckOutbound(t, w2, n))
  }

  lemma SendLegUnfolds(t: Terms, w: World, n: nat, a: Answers)
    requires IsStep(t, n) && |w.rows| == |t.steps|
    ensures var w1 := ExecAll(w, CheckOutbound(t, w, n));
            && |w1.rows| == |t.steps|
            && ExecAll(w, SendLeg(t, w, n, a)) == if w1.rows[n - 1].out == Settled then w1 else AfterSend(t, w1, n, a)
  {
    hide CheckOutbound, EnsureSent, StopsLocked;
    var c := CheckOutbound(t, w, n);
    var w1 := ExecAll(w, c);
    ExecAllRows(w, c);
    if w1.rows[n - 1].out != Settled {
      var s := EnsureSent(t, w1, n, a);
      var w2 := ExecAll(w1, s);
      ExecAllRows(w1, s);
      ExecAllAppend(w, c, s);
      var last := if StopsLocked(t, w1, n, a) then [] else CheckOutbound(t, w2, n);
      ExecAllAppend(w, c + s, last);
    }
  }

  /** An unsettled row whose payment the chain shows: found, written down, and seen again. */
  lemma AfterSendSettles(t: Terms, w: World, n: nat, a: Answers)
    requires IsStep(t, n) && |w.rows| == |t.steps| && w.pool == [] && w.rows[n - 1].out != Settled
    requires FindPayment(t, w, n).Some?
    requires AppliedOn(w, FindPayment(t, w, n).value.env)
    requires FindPayment(t, w, n).value.depth >= RequiredDepth(t, t.sendsLapse)
    requires FindPayment(t, w, n).value.depth
          == Depth(t.sendsLapse, w.tip, w.account[FindPayment(t, w, n).value.env.seqNo - 1].height)
    ensures var v := AfterSend(t, w, n, a);
            && OnlyStep(w, v, n) && v.pool == w.pool && v.released == w.released
            && v.rows[n - 1].out == Settled && v.rows[n - 1].inSettled == w.rows[n - 1].inSettled
            && v.rows[n - 1].envelope == w.rows[n - 1].envelope
  {
    EnsureSentRecords(t, w, n, a);
    hide EnsureSent, StopsLocked, FindPayment, CheckOutbound;
    var found := FindPayment(t, w, n).value;
    var s := RecordOutbound(t, w, n, found.env, found.depth);
    ExecOne(w, s[0]);
    CheckOutboundTouches(t, ExecAll(w, s), n);
    CheckOutboundLeaves(t, ExecAll(w, s), n);
  }

  /** A leg the chain shows paid ends the pass settled, and nothing goes out. */
  lemma SendLegSettles(t: Terms, w: World, n: nat, a: Answers)
    requires Inv(t, w) && IsStep(t, n) && Calm(t, w) && Paid(w, n)
    ensures var v := ExecAll(w, SendLeg(t, w, n, a));
            && OnlyStep(w, v, n) && v.pool == w.pool && v.released == w.released
            && v.rows[n - 1].out == Settled && v.rows[n - 1].inSettled == w.rows[n - 1].inSettled
            && v.rows[n - 1].envelope == w.rows[n - 1].envelope
  {
    FoundWhenPaid(t, w, n);
    assert w.pool == [];
    hide Inv, Calm, FindPayment, EnsureSent, CheckOutbound, SendLeg, AfterSend;
    CheckOutboundTouches(t, w, n);
    SendLegUnfolds(t, w, n, a);
    var w1 := ExecAll(w, CheckOutbound(t, w, n));
    if w1.rows[n - 1].out != Settled {
      FindIgnoresRows(t, w, w1, n);
      AfterSendSettles(t, w1, n, a);
      StepThenStep(w, w1, AfterSend(t, w1, n, a), n);
    }
  }

  /** The payment that closes a leg: this step, this amount, and the account's next nonce. */
  predicate NextPayment(t: Terms, w: World, n: nat, e: Envelope) {
    IsStep(t, n) && e == Envelope(n, |w.account| + 1, Amount(t, n))
  }

  /** The pass has put exactly one payment in the mempool, and its row stores it. */
  ghost predicate PaysNext(t: Terms, w: World, v: World, n: nat) {
    && OnlyStep(w, v, n) && 1 <= n <= |w.rows| && v.rows[n - 1].envelope.Some?
    && NextPayment(t, w, n, v.rows[n - 1].envelope.value)
    && v.pool == [Pay(v.rows[n - 1].envelope.value)] && v.rows[n - 1].inSettled == w.rows[n - 1].inSettled
  }

  lemma BuildPays(t: Terms, w: World, n: nat, row: Row, a: Answers)
    requires IsStep(t, n) && |w.rows| == |t.steps| && w.pool == [] && a.unlocked && a.sent
    requires row.inSettled == w.rows[n - 1].inSettled
    ensures PaysNext(t, w, ExecAll(w, BuildAndSend(t, w, n, row, a)), n)
  {
    var e := FreshEnvelope(t, w, n);
    var intent := row.(envelope := Some(e), txId := Some(e), out := Intent);
    var f, g, h := Save(n, intent), Submit(e, true), Save(n, intent.(out := Submitted));
    assert BuildAndSend(t, w, n, row, a) == [f] + ([g] + [h]);
    ExecAllAppend(w, [f], [g] + [h]);
    ExecOne(w, f);
    ExecTwo(Exec(w, f), g, h);
  }

  lemma ResendPays(t: Terms, w: World, n: nat, row: Row, a: Answers)
    requires IsStep(t, n) && |w.rows| == |t.steps| && w.pool == [] && a.unlocked && a.sent && row == w.rows[n - 1]
    requires row.envelope.Some? && row.envelope.value.step == n && row.envelope.value.amount == Amount(t, n)
    requires row.envelope.value.seqNo <= |w.account| + 1
    requires a.resent <==> row.envelope.value.seqNo == |w.account| + 1
    ensures PaysNext(t, w, ExecAll(w, Resend(t, w, n, row, a)), n)
  {
    var e := row.envelope.value;
    var f, g := Submit(e, a.resent), Save(n, AfterResend(w, row, a));
    ExecTwo(w, f, g);
    if a.resent {
      assert Resend(t, w, n, row, a) == [f] + [g];
    } else {
      var v := Exec(Exec(w, f), g);
      var b := BuildAndSend(t, w, n, AfterResend(w, row, a), a);
      assert b == BuildAndSend(t, v, n, AfterResend(w, row, a), a);
      BuildPays(t, v, n, AfterResend(w, row, a), a);
      ExecAllAppend(w, [f] + [g], b);
      PaysThrough(t, w, v, ExecAll(v, b), n);
    }
  }

  lemma PaysThrough(t: Terms, w: World, m: World, v: World, n: nat)
    requires OnlyStep(w, m, n) && PaysNext(t, m, v, n) && m.rows[n - 1].inSettled == w.rows[n - 1].inSettled
    ensures PaysNext(t, w, v, n)
  {
    forall k | 0 <= k < |w.rows| && k != n - 1
      ensures SameFlags(v.rows[k], w.rows[k])
    {
      assert SameFlags(m.rows[k], w.rows[k]);
    }
  }

  /** What this pass needs to know of the row it pays from. */
  ghost predicate ReadyToPay(t: Terms, w: World, n: nat, a: Answers) {
    && IsStep(t, n) && |w.rows| == |t.steps| && w.pool == [] && a.unlocked && a.sent
    && w.rows[n - 1].out != Settled && FindPayment(t, w, n).None?
    && var stored := w.rows[n - 1].envelope;
    && (stored.Some? ==>
          && HasLiveClaim(w.rows[n - 1]) && stored.value.step == n && stored.value.amount == Amount(t, n)
          && stored.value.seqNo <= |w.account| + 1
          && (a.resent <==> stored.value.seqNo == |w.account| + 1))
  }

  lemma AfterSendPays(t: Terms, w: World, n: nat, a: Answers)
    requires ReadyToPay(t, w, n, a)
    ensures PaysNext(t, w, AfterSend(t, w, n, a), n)
  {
    var row := w.rows[n - 1];
    assert !StopsLocked(t, w, n, a);
    if row.envelope.Some? {
      ResendPays(t, w, n, row, a);
      assert EnsureSent(t, w, n, a) == Resend(t, w, n, row, a);
    } else {
      BuildPays(t, w, n, row, a);
      assert EnsureSent(t, w, n, a) == BuildAndSend(t, w, n, row, a);
    }
    hide EnsureSent, CheckOutbound, FindPayment, StopsLocked, BuildAndSend, Resend, LegAfter;
    var v := ExecAll(w, EnsureSent(t, w, n, a));
    CheckOutboundTouches(t, v, n);
    StepThenStep(w, v, ExecAll(v, CheckOutbound(t, v, n)), n);
  }

  lemma StepThenStep(w: World, m: World, v: World, n: nat)
    requires OnlyStep(w, m, n) && OnlyStep(m, v, n)
    ensures OnlyStep(w, v, n)
  {
    forall k | 0 <= k < |w.rows| && k != n - 1
      ensures SameFlags(v.rows[k], w.rows[k])
    {
      assert SameFlags(m.rows[k], w.rows[k]);
    }
  }

  lemma StoredAmount(t: Terms, w: World, n: nat)
    requires Inv(t, w) && IsStep(t, n)
    ensures var stored := w.rows[n - 1].envelope;
            stored.Some? ==> stored.value.step == n && stored.value.amount == Amount(t, n)
  {
    assert StoredFits(t, w, n);
  }

  /** A leg the chain shows unpaid is paid by the pass, at the next nonce, whatever its row had stored. */
  lemma SendLegPays(t: Terms, w: World, n: nat)
    requires Inv(t, w) && IsStep(t, n) && Calm(t, w) && !Paid(w, n)
    ensures PaysNext(t, w, ExecAll(w, SendLeg(t, w, n, FairAnswers(w, n))), n)
  {
    var a := FairAnswers(w, n);
    TxIdOfStep(t, w, n);
    FoundWhenPaid(t, w, n);
    StoredAmount(t, w, n);
    var row := w.rows[n - 1];
    if row.txId.Some? && AppliedOn(w, row.txId.value) {
      AppliedIsDeep(t, w, n, row.txId.value);
    }
    assert NonceReached(w, n);
    assert !OutSettled(t, w, n);
    CheckOutboundTouches(t, w, n);
    CheckOutboundLeaves(t, w, n);
    SendLegUnfolds(t, w, n, a);
    var w1 := ExecAll(w, CheckOutbound(t, w, n));
    FindIgnoresRows(t, w, w1, n);
    hide Inv, Calm, FindPayment, EnsureSent, CheckOutbound, SendLeg, AfterSend, OutSettled;
    assert ReadyToPay(t, w1, n, a);
    AfterSendPays(t, w1, n, a);
    PaysThrough(t, w, w1, AfterSend(t, w1, n, a), n);
  }

  /** Looking for the peer's leg: the row says settled exactly when the peer has paid. */
  lemma CheckInboundLeaves(t: Terms, w: World, n: nat, a: Answers)
    requires IsStep(t, n) && |w.rows| == |t.steps| && !Shadowed(t, a)
    requires (n in w.inbound <==> InSettled(t, w, n)) && (w.rows[n - 1].inSettled ==> InSettled(t, w, n))
    ensures var v := ExecAll(w, CheckInbound(t, w, n, a));
            && OnlyStep(w, v, n) && v.pool == w.pool && v.released == w.released
            && v.rows[n - 1].out == w.rows[n - 1].out && v.rows[n - 1].envelope == w.rows[n - 1].envelope
            && v.rows[n - 1].txId == w.rows[n - 1].txId
            && v.rows[n - 1].inSettled == (n in w.inbound)
  {
    var i := CheckInbound(t, w, n, a);
    if i != [] {
      ExecOne(w, i[0]);
    }
  }

  lemma UpdateTimingTouches(t: Terms, w: World, n: nat)
    requires IsStep(t, n) && |w.rows| == |t.steps|
    ensures var v := ExecAll(w, UpdateTiming(t, w, n));
            OnlyStep(w, v, n) && SameFlags(v.rows[n - 1], w.rows[n - 1]) && v.pool == w.pool && v.released == w.released
  {
    var row := RowOf(w, n);
    var f := Save(n, row.(completed := w.tip));
    if row.out == Settled && row.inSettled && row.completed == 0 {
      if n < |w.rows| && RowOf(w, n + 1).deadline == 0 {
        ExecTwo(w, f, Save(n + 1, RowOf(w, n + 1).(deadline := w.tip + StepBudget(t))));
      } else {
        assert UpdateTiming(t, w, n) == [f];
        ExecOne(w, f);
      }
    }
  }

  /** The step may be worked on from this side: it opens the step, or the peer's leg is there. */
  predicate Turn(t: Terms, w: World, n: nat)
    requires n >= 1
  {
    MovesFirst(n, t.opens) || n in w.inbound
  }

  /** How a fair pass leaves the step it worked on. */
  ghost predicate StepWorked(t: Terms, w: World, v: World, n: nat)
    requires IsStep(t, n) && |w.rows| == |t.steps| && |v.rows| == |w.rows|
  {
    if !Turn(t, w, n) then v.pool == [] && v.rows[n - 1].out == w.rows[n - 1].out && !w.rows[n - 1].inSettled
    else if Paid(w, n) then v.pool == [] && v.rows[n - 1].out == Settled && v.rows[n - 1].inSettled == (n in w.inbound)
    else
      && v.rows[n - 1].envelope.Some? && NextPayment(t, w, n, v.rows[n - 1].envelope.value)
      && v.pool == [Pay(v.rows[n - 1].envelope.value)]
      && (w.rows[n - 1].inSettled ==> v.rows[n - 1].inSettled)
  }

  lemma AdvanceUnfolds(t: Terms, w: World, n: nat, a: Answers)
    requires IsStep(t, n) && |w.rows| == |t.steps|
    ensures MovesFirst(n, t.opens) ==>
              var w1 := ExecAll(w, SendLeg(t, w, n, a));
              && |w1.rows| == |t.steps|
              && var w2 := if w1.rows[n - 1].out == Settled then ExecAll(w1, CheckInbound(t, w1, n, a)) else w1;
              && |w2.rows| == |t.steps|
              && ExecAll(w, AdvanceStep(t, w, n, a)) == ExecAll(w2, UpdateTiming(t, w2, n))
    ensures !MovesFirst(n, t.opens) ==>
              var w1 := ExecAll(w, CheckInbound(t, w, n, a));
              && |w1.rows| == |t.steps|
              && var w2 := if w1.rows[n - 1].inSettled then ExecAll(w1, SendLeg(t, w1, n, a)) else w1;
              && |w2.rows| == |t.steps|
              && ExecAll(w, AdvanceStep(t, w, n, a)) == ExecAll(w2, UpdateTiming(t, w2, n))
  {
    hide SendLeg, CheckInbound, UpdateTiming;
    if MovesFirst(n, t.opens) {
      var s := SendLeg(t, w, n, a);
      var w1 := ExecAll(w, s);
      ExecAllRows(w, s);
      var i := if w1.rows[n - 1].out == Settled then CheckInbound(t, w1, n, a) else [];
      ExecAllRows(w1, i);
      ExecAllAppend(w, s, i);
      ExecAllAppend(w, s + i, UpdateTiming(t, ExecAll(w1, i), n));
    } else {
      var i := CheckInbound(t, w, n, a);
      var w1 := ExecAll(w, i);
      ExecAllRows(w, i);
      var s := if w1.rows[n - 1].inSettled then SendLeg(t, w1, n, a) else [];
      ExecAllRows(w1, s);
      ExecAllAppend(w, i, s);
      ExecAllAppend(w, i + s, UpdateTiming(t, ExecAll(w1, s), n));
    }
  }

  /** Row bookkeeping does not make a settled chain less settled. */
  lemma CalmKept(t: Terms, w: World, v: World, n: nat)
    requires Calm(t, w) && OnlyStep(w, v, n) && v.pool == w.pool
    requires 1 <= n <= |w.rows| ==> v.rows[n - 1].envelope == w.rows[n - 1].envelope
    ensures Calm(t, v) && Paid(v, n) == Paid(w, n) && InSettled(t, v, n) == InSettled(t, w, n)
  {
    SamePayments(w, v);
    forall m: nat | m in v.inbound
      ensures InSettled(t, v, m)
    {
      assert InSettled(t, w, m);
    }
    forall m: nat, i: nat | PaidAt(v, m, i)
      ensures Depth(t.sendsLapse, v.tip, v.account[i].height) >= RequiredDepth(t, t.sendsLapse)
    {
      assert PaidAt(w, m, i);
    }
    forall m | 1 <= m <= |v.rows|
      ensures NonceReached(v, m)
    {
      assert NonceReached(w, m);
      assert m != n ==> SameFlags(v.rows[m - 1], w.rows[m - 1]);
    }
  }

  lemma InboundIsSettled(t: Terms, w: World, n: nat)
    requires Inv(t, w) && IsStep(t, n) && Calm(t, w)
    ensures n in w.inbound <==> InSettled(t, w, n)
    ensures w.rows[n - 1].inSettled ==> n in w.inbound
  {
    TxIdOfStep(t, w, n);
  }

  lemma FirstMoverWorks(t: Terms, w: World, n: nat)
    requires Inv(t, w) && IsStep(t, n) && Calm(t, w) && MovesFirst(n, t.opens)
    ensures var v := ExecAll(w, AdvanceStep(t, w, n, FairAnswers(w, n)));
            OnlyStep(w, v, n) && StepWorked(t, w, v, n)
  {
    var a := FairAnswers(w, n);
    AdvanceUnfolds(t, w, n, a);
    InboundIsSettled(t, w, n);
    var w1 := ExecAll(w, SendLeg(t, w, n, a));
    if Paid(w, n) {
      SendLegSettles(t, w, n, a);
    } else {
      SendLegPays(t, w, n);
    }
    hide Inv, Calm, SendLeg, CheckInbound, UpdateTiming, AdvanceStep;
    var w2 := w1;
    if w1.rows[n - 1].out == Settled {
      w2 := ExecAll(w1, CheckInbound(t, w1, n, a));
      CheckInboundLeaves(t, w1, n, a);
      StepThenStep(w, w1, w2, n);
    }
    UpdateTimingTouches(t, w2, n);
    StepThenStep(w, w2, ExecAll(w2, UpdateTiming(t, w2, n)), n);
  }

  lemma SecondMoverWorks(t: Terms, w: World, n: nat)
    requires Inv(t, w) && IsStep(t, n) && Calm(t, w) && !MovesFirst(n, t.opens)
    ensures var v := ExecAll(w, AdvanceStep(t, w, n, FairAnswers(w, n)));
            OnlyStep(w, v, n) && StepWorked(t, w, v, n)
  {
    var a := FairAnswers(w, n);
    AdvanceUnfolds(t, w, n, a);
    InboundIsSettled(t, w, n);
    CheckInboundLeaves(t, w, n, a);
    var w1 := ExecAll(w, CheckInbound(t, w, n, a));
    CalmKept(t, w, w1, n);
    CheckInboundSafe(t, w, n, a);
    SafeKeepsInv(t, w, CheckInbound(t, w, n, a));
    assert FairAnswers(w1, n) == a;
    var w2 := w1;
    if w1.rows[n - 1].inSettled {
      w2 := ExecAll(w1, SendLeg(t, w1, n, a));
      if Paid(w, n) {
        SendLegSettles(t, w1, n, a);
      } else {
        SendLegPays(t, w1, n);
      }
    }
    hide Inv, Calm, SendLeg, CheckInbound, UpdateTiming, AdvanceStep;
    StepThenStep(w, w1, w2, n);
    UpdateTimingTouches(t, w2, n);
    StepThenStep(w, w2, ExecAll(w2, UpdateTiming(t, w2, n)), n);
  }
}
