/** Every pass the engine can decide on is safe to carry out, however the chains move meanwhile. */
module SwapPlans {
  import opened Collections
  import opened Schedule
  import opened SwapModel
  import opened SwapSafety

  lemma SafeCons(t: Terms, w: World, f: Effect, rest: seq<Effect>)
    requires |w.rows| == |t.steps| && Guard(t, w, f) && Safe(t, Exec(w, f), rest)
    ensures Safe(t, w, [f] + rest)
  {
    assert ([f] + rest)[1..] == rest;
  }

  lemma SaveSafe(t: Terms, w: World, n: nat, row: Row)
    requires Inv(t, w) && Guard(t, w, Save(n, row))
    ensures Safe(t, w, [Save(n, row)])
  {
    SafeCons(t, w, Save(n, row), []);
    assert [Save(n, row)] + [] == [Save(n, row)];
  }

  lemma UnpropagateSafe(t: Terms, w: World, n: nat)
    requires Inv(t, w) && IsStep(t, n)
    ensures Safe(t, w, Unpropagate(t, w, n, w.rows[n - 1]))
  {
    var row := w.rows[n - 1];
    assert StoredFits(t, w, n);
    var f := Save(n, row.(completed := 0));
    if row.completed != 0 {
      GuardedKeepsInv(t, w, f);
      var v := Exec(w, f);
      if n < |w.rows| && RowOf(w, n + 1).deadline == row.completed + StepBudget(t) {
        assert StoredFits(t, v, n + 1);
        SaveSafe(t, v, n + 1, RowOf(w, n + 1).(deadline := 0));
        SafeCons(t, w, f, [Save(n + 1, RowOf(w, n + 1).(deadline := 0))]);
      } else {
        SafeCons(t, w, f, []);
      }
    }
  }

  /** A save of this step's row, then the clean-up a lost settlement calls for. */
  lemma SaveThenUnpropagateSafe(t: Terms, w: World, n: nat, row: Row)
    requires Inv(t, w) && Guard(t, w, Save(n, row))
    ensures Safe(t, w, [Save(n, row)] + Unpropagate(t, w, n, row))
  {
    var v := Exec(w, Save(n, row));
    GuardedKeepsInv(t, w, Save(n, row));
    UnpropagateSafe(t, v, n);
    assert Unpropagate(t, v, n, row) == Unpropagate(t, w, n, row);
    SafeCons(t, w, Save(n, row), Unpropagate(t, w, n, row));
  }

  lemma RecordOutboundSafe(t: Terms, w: World, n: nat, e: Envelope, depth: int)
    requires Inv(t, w) && IsStep(t, n) && e.step == n
    requires depth >= RequiredDepth(t, t.sendsLapse) ==> OutSettled(t, w, n) && FinallyApplied(w, e)
    ensures Safe(t, w, RecordOutbound(t, w, n, e, depth))
  {
    assert StoredFits(t, w, n);
    SaveSafe(t, w, n, RowOf(w, n).(txId := Some(e),
      out := if depth >= RequiredDepth(t, t.sendsLapse) then Settled else Submitted));
  }

  lemma CheckOutboundSafe(t: Terms, w: World, n: nat)
    requires Inv(t, w) && IsStep(t, n)
    ensures Safe(t, w, CheckOutbound(t, w, n))
  {
    assert StoredFits(t, w, n);
    var row := RowOf(w, n);
    if row.txId.Some? {
      var e := row.txId.value;
      var depth := Confirmations(t, w, e);
      if depth.None? {
        SaveThenUnpropagateSafe(t, w, n, row.(out := Submitted));
      } else {
        if depth.value >= RequiredDepth(t, t.sendsLapse) {
          assert PaidAt(w, n, e.seqNo - 1);
        }
        RecordOutboundSafe(t, w, n, e, depth.value);
      }
    }
  }

  lemma CheckInboundSafe(t: Terms, w: World, n: nat, a: Answers)
    requires Inv(t, w) && IsStep(t, n)
    ensures Safe(t, w, CheckInbound(t, w, n, a))
  {
    assert StoredFits(t, w, n);
    var row := RowOf(w, n);
    if row.inSettled && row.inSeen {
      if !InSettled(t, w, n) || Shadowed(t, a) {
        SaveThenUnpropagateSafe(t, w, n, row.(inSettled := false));
      }
    } else if !Shadowed(t, a) && n in w.inbound && InSettled(t, w, n) {
      SaveSafe(t, w, n, row.(inSeen := true, inSettled := true));
    } else {
      SaveSafe(t, w, n, row.(inSeen := true));
    }
  }

  lemma SettledByNow(t: Terms, w: World, n: nat)
    requires Inv(t, w) && OutSettled(t, w, n) && InSettled(t, w, n)
    ensures LapseLegBy(t, w, n, w.tip)
  {
  }

  lemma NextDeadlineSafe(t: Terms, w: World, n: nat, h: int)
    requires Inv(t, w) && IsStep(t, n) && n < |w.rows| && LapseLegBy(t, w, n, h)
    ensures Safe(t, w, [Save(n + 1, RowOf(w, n + 1).(deadline := h + StepBudget(t)))])
  {
    assert StoredFits(t, w, n + 1);
    SaveSafe(t, w, n + 1, RowOf(w, n + 1).(deadline := h + StepBudget(t)));
  }

  lemma CompletionGuarded(t: Terms, w: World, n: nat)
    requires Inv(t, w) && IsStep(t, n) && w.rows[n - 1].out == Settled && w.rows[n - 1].inSettled
    ensures Guard(t, w, Save(n, w.rows[n - 1].(completed := w.tip)))
    ensures LapseLegBy(t, w, n, w.tip) && LapseLegBy(t, Exec(w, Save(n, w.rows[n - 1].(completed := w.tip))), n, w.tip)
  {
    assert StoredFits(t, w, n);
    SettledByNow(t, w, n);
    var f := Save(n, w.rows[n - 1].(completed := w.tip));
    GuardedKeepsInv(t, w, f);
    SettledIgnoresEffects(t, w, f);
    SettledByNow(t, Exec(w, f), n);
  }

  lemma UpdateTimingSafe(t: Terms, w: World, n: nat)
    requires Inv(t, w) && IsStep(t, n)
    ensures Safe(t, w, UpdateTiming(t, w, n))
  {
    var row := RowOf(w, n);
    if row.out == Settled && row.inSettled && row.completed == 0 {
      CompletionGuarded(t, w, n);
      var f := Save(n, row.(completed := w.tip));
      GuardedKeepsInv(t, w, f);
      var v := Exec(w, f);
      assert |w.rows| == |t.steps|;
      hide Inv, Guard, LapseLegBy;
      if n < |w.rows| && RowOf(w, n + 1).deadline == 0 {
        NextDeadlineSafe(t, v, n, w.tip);
        SafeCons(t, w, f, [Save(n + 1, RowOf(v, n + 1).(deadline := w.tip + StepBudget(t)))]);
      } else {
        SafeCons(t, w, f, []);
      }
    }
  }

  // ----- Looking before building --------------------------------------------------------------

  /** When the lookup finds nothing, nothing for the step was ever applied. */
  lemma NotFoundMeansUnpaid(t: Terms, w: World, n: nat)
    requires Inv(t, w) && IsStep(t, n) && FindPayment(t, w, n).None?
    ensures !Paid(w, n)
  {
    assert forall i: nat :: PaidAt(w, n, i) ==> w.account[i].tx.env.amount == Amount(t, n) by {
      assert forall e :: e in w.released ==> EnvelopeFits(t, w, e);
    }
  }

  lemma FoundMeansDepth(t: Terms, w: World, n: nat)
    requires Inv(t, w) && IsStep(t, n) && FindPayment(t, w, n).Some?
    ensures var f := FindPayment(t, w, n).value;
            f.env.step == n && (f.depth >= RequiredDepth(t, t.sendsLapse) ==> OutSettled(t, w, n) && FinallyApplied(w, f.env))
  {
    if FindInPool(Visible(t, w), n, Amount(t, n)).None? {
      assert PaidAt(w, n, FindOnChain(w.account, n, Amount(t, n)).value);
    }
  }

  lemma BuildSafe(t: Terms, w: World, n: nat, a: Answers)
    requires Inv(t, w) && Gate(t, w, n) && !Paid(w, n) && NoLiveEnvelope(w, n)
    ensures Safe(t, w, BuildAndSend(t, w, n, w.rows[n - 1], a))
  {
    if a.unlocked {
      assert StoredFits(t, w, n);
      var e := FreshEnvelope(t, w, n);
      var intent := w.rows[n - 1].(envelope := Some(e), txId := Some(e), out := Intent);
      var last := if a.sent then intent.(out := Submitted) else intent;
      var f, g := Save(n, intent), Submit(e, a.sent);
      assert EnvelopeFits(t, w, e);
      GuardedKeepsInv(t, w, f);
      var v := Exec(w, f);
      GuardedKeepsInv(t, v, g);
      var x := Exec(v, g);
      assert StoredFits(t, x, n);
      SaveSafe(t, x, n, last);
      SafeCons(t, v, g, [Save(n, last)]);
      SafeCons(t, w, f, [g, Save(n, last)]);
      assert [f] + [g, Save(n, last)] == BuildAndSend(t, w, n, w.rows[n - 1], a);
    }
  }

  /** Dropping an envelope that can no longer apply leaves its step without a live one. */
  lemma ForgettingSafe(t: Terms, w: World, n: nat)
    requires Inv(t, w) && IsStep(t, n) && w.rows[n - 1].envelope.Some? && !Live(w, w.rows[n - 1].envelope.value)
    ensures var (f, g) := (Submit(w.rows[n - 1].envelope.value, false), Save(n, w.rows[n - 1].(out := Dead, envelope := None)));
            && Guard(t, w, f) && Inv(t, Exec(w, f)) && Guard(t, Exec(w, f), g)
            && Inv(t, Exec(Exec(w, f), g)) && NoLiveEnvelope(Exec(Exec(w, f), g), n)
  {
    assert StoredFits(t, w, n);
    var dead := w.rows[n - 1].(out := Dead, envelope := None);
    var f, g := Submit(w.rows[n - 1].envelope.value, false), Save(n, dead);
    GuardedKeepsInv(t, w, f);
    var v := Exec(w, f);
    SettledIgnoresEffects(t, w, f);
    RowIgnoresEffects(t, w, f, n, dead);
    assert NoLiveEnvelope(v, n) by {
      assert ReleasedFits(t, v);
    }
    GuardedKeepsInv(t, v, g);
    assert NoLiveEnvelope(Exec(v, g), n);
  }

  lemma RebuildShape(t: Terms, w: World, n: nat, a: Answers)
    requires IsStep(t, n) && |w.rows| == |t.steps| && w.rows[n - 1].envelope.Some?
    requires !a.resent && SequenceConsumed(w, w.rows[n - 1].envelope.value)
    ensures var (f, g) := (Submit(w.rows[n - 1].envelope.value, false), Save(n, w.rows[n - 1].(out := Dead, envelope := None)));
            Resend(t, w, n, w.rows[n - 1], a) == [f] + ([g] + BuildAndSend(t, Exec(Exec(w, f), g), n, g.row, a))
  {
    var row := w.rows[n - 1];
    var f, g := Submit(row.envelope.value, false), Save(n, row.(out := Dead, envelope := None));
    assert BuildAndSend(t, Exec(Exec(w, f), g), n, g.row, a) == BuildAndSend(t, w, n, g.row, a);
  }

  /** The stored envelope was rejected and its nonce is finally spent: forget it, then build. */
  lemma RebuildSafe(t: Terms, w: World, n: nat, a: Answers)
    requires Inv(t, w) && Gate(t, w, n) && !Paid(w, n)
    requires w.rows[n - 1].envelope.Some? && !Live(w, w.rows[n - 1].envelope.value)
    requires !a.resent && SequenceConsumed(w, w.rows[n - 1].envelope.value)
    ensures Safe(t, w, Resend(t, w, n, w.rows[n - 1], a))
  {
    ForgettingSafe(t, w, n);
    var e := w.rows[n - 1].envelope.value;
    var dead := w.rows[n - 1].(out := Dead, envelope := None);
    var f, g := Submit(e, false), Save(n, dead);
    var v := Exec(w, f);
    var x := Exec(v, g);
    SettledIgnoresEffects(t, w, f);
    SettledIgnoresEffects(t, v, g);
    RebuildShape(t, w, n, a);
    hide Inv, Guard, Gate, NoLiveEnvelope, Resend, BuildAndSend;
    BuildSafe(t, x, n, a);
    var rest := BuildAndSend(t, x, n, dead, a);
    SafeCons(t, v, g, rest);
    SafeCons(t, w, f, [g] + rest);
  }

  /**
   A send gives up a stored envelope that may still be applied: it was refused, its nonce is taken by
   another payment, and that payment is not past a reorg.
   */
  ghost predicate ForgetsLive(t: Terms, w: World, n: nat, a: Answers)
    requires IsStep(t, n) && |w.rows| == |t.steps|
  {
    var row := w.rows[n - 1];
    && row.out != Settled && FindPayment(t, w, n).None? && HasLiveClaim(row)
    && !a.resent && SequenceConsumed(w, row.envelope.value) && Live(w, row.envelope.value)
  }

  lemma ResendAloneSafe(t: Terms, w: World, n: nat, a: Answers)
    requires Inv(t, w) && IsStep(t, n) && HasLiveClaim(w.rows[n - 1])
    requires a.resent || !SequenceConsumed(w, w.rows[n - 1].envelope.value)
    ensures Safe(t, w, Resend(t, w, n, w.rows[n - 1], a))
  {
    assert StoredFits(t, w, n);
    var row := w.rows[n - 1];
    var e := row.envelope.value;
    var f := Submit(e, a.resent);
    GuardedKeepsInv(t, w, f);
    var v := Exec(w, f);
    assert StoredFits(t, v, n);
    var last := if a.resent then row.(out := Submitted) else row;
    SaveSafe(t, v, n, last);
    SafeCons(t, w, f, [Save(n, last)]);
    assert [f] + [Save(n, last)] == Resend(t, w, n, row, a);
  }

  /** From an open gate, a send that gives up no live envelope is safe. */
  lemma EnsureSentSafe(t: Terms, w: World, n: nat, a: Answers)
    requires Inv(t, w) && Gate(t, w, n) && !ForgetsLive(t, w, n, a)
    ensures Safe(t, w, EnsureSent(t, w, n, a))
  {
    assert StoredFits(t, w, n);
    var row := RowOf(w, n);
    if row.out != Settled {
      var found := FindPayment(t, w, n);
      if found.Some? {
        FoundMeansDepth(t, w, n);
        RecordOutboundSafe(t, w, n, found.value.env, found.value.depth);
      } else {
        NotFoundMeansUnpaid(t, w, n);
        if !HasLiveClaim(row) {
          assert NoLiveEnvelope(w, n);
          BuildSafe(t, w, n, a);
        } else if !a.resent && SequenceConsumed(w, row.envelope.value) {
          RebuildSafe(t, w, n, a);
        } else {
          ResendAloneSafe(t, w, n, a);
        }
      }
    }
  }

  /** No stored envelope has lost its nonce to a payment that may yet be reorged out. */
  ghost predicate SpentIsFinal(w: World, n: nat)
    requires 1 <= n <= |w.rows|
  {
    var stored := w.rows[n - 1].envelope;
    stored.Some? && SequenceConsumed(w, stored.value) && !Paid(w, n) ==> !Live(w, stored.value)
  }

  lemma SpentForgetsNothing(t: Terms, w: World, n: nat, a: Answers)
    requires Inv(t, w) && IsStep(t, n) && SpentIsFinal(w, n)
    ensures !ForgetsLive(t, w, n, a)
  {
    if FindPayment(t, w, n).None? {
      NotFoundMeansUnpaid(t, w, n);
    }
  }

  // ----- Whole passes ------------------------------------------------------------------------------

  lemma {:induction false} GateIgnoresEffects(t: Terms, w: World, fs: seq<Effect>, n: nat)
    ensures Gate(t, ExecAll(w, fs), n) == Gate(t, w, n)
    decreases fs
  {
    if fs != [] {
      SettledIgnoresEffects(t, w, fs[0]);
      GateIgnoresEffects(t, Exec(w, fs[0]), fs[1..], n);
    }
  }

  /** Saves that leave the step's envelope alone leave the assumption about it alone. */
  lemma {:induction false} SpentIsFinalStays(t: Terms, w: World, fs: seq<Effect>, n: nat)
    requires 1 <= n <= |w.rows| && SpentIsFinal(w, n)
    requires forall f :: f in fs ==> f.Save? && (f.n == n ==> f.row.envelope == w.rows[n - 1].envelope)
    ensures |ExecAll(w, fs).rows| == |w.rows| && SpentIsFinal(ExecAll(w, fs), n)
    decreases fs
  {
    if fs != [] {
      SettledIgnoresEffects(t, w, fs[0]);
      SpentIsFinalStays(t, Exec(w, fs[0]), fs[1..], n);
    }
  }

  lemma SendLegSafe(t: Terms, w: World, n: nat, a: Answers)
    requires Inv(t, w) && Gate(t, w, n) && SpentIsFinal(w, n)
    ensures Safe(t, w, SendLeg(t, w, n, a))
  {
    CheckOutboundSafe(t, w, n);
    var c := CheckOutbound(t, w, n);
    SpentIsFinalStays(t, w, c, n);
    SafeKeepsInv(t, w, c);
    var w1 := ExecAll(w, c);
    GateIgnoresEffects(t, w, c, n);
    if RowOf(w1, n).out != Settled {
      SpentForgetsNothing(t, w1, n, a);
      EnsureSentSafe(t, w1, n, a);
      var s := EnsureSent(t, w1, n, a);
      SafeAppend(t, w, c, s);
      SafeKeepsInv(t, w1, s);
      ExecAllAppend(w, c, s);
      var w2 := ExecAll(w1, s);
      CheckOutboundSafe(t, w2, n);
      var last := if StopsLocked(t, w1, n, a) then [] else CheckOutbound(t, w2, n);
      SafeAppend(t, w, c + s, last);
    }
  }

  /** A gate and its row: reading the row is enough, because rows never claim more than the chains show. */
  lemma RowsOpenGate(t: Terms, w: World, n: nat)
    requires Inv(t, w) && IsStep(t, n)
    requires forall m :: 1 <= m < n ==> StepDone(w.rows, m)
    requires MovesFirst(n, t.opens) || w.rows[n - 1].inSettled
    ensures Gate(t, w, n)
  {
    forall m | 1 <= m < n
      ensures BothSettled(t, w, m)
    {
      assert StepDone(w.rows, m) && StoredFits(t, w, m);
    }
    assert StoredFits(t, w, n);
  }

  lemma {:induction false} OtherRowsSettledStays(t: Terms, w: World, fs: seq<Effect>, n: nat)
    requires |w.rows| == |t.steps| && forall f :: f in fs && f.Save? ==> f.n >= n
    ensures var v := ExecAll(w, fs);
            |v.rows| == |w.rows| && forall m :: 1 <= m < n && m <= |w.rows| ==> StepDone(v.rows, m) == StepDone(w.rows, m)
    decreases fs
  {
    if fs != [] {
      OtherRowsSettledStays(t, Exec(w, fs[0]), fs[1..], n);
    }
  }

  lemma FirstMoverSafe(t: Terms, w: World, n: nat, a: Answers)
    requires Inv(t, w) && IsStep(t, n) && |w.rows| == |t.steps| && SpentIsFinal(w, n) && MovesFirst(n, t.opens)
    requires forall m :: 1 <= m < n ==> StepDone(w.rows, m)
    ensures Safe(t, w, AdvanceStep(t, w, n, a))
  {
    RowsOpenGate(t, w, n);
    hide Inv, Safe, SendLeg, CheckInbound, UpdateTiming, SpentIsFinal, Gate;
    SendLegSafe(t, w, n, a);
    var s := SendLeg(t, w, n, a);
    SafeKeepsInv(t, w, s);
    var w1 := ExecAll(w, s);
    ExecAllRows(w, s);
    CheckInboundSafe(t, w1, n, a);
    var i := if RowOf(w1, n).out == Settled then CheckInbound(t, w1, n, a) else [];
    NothingIsSafe(t, w1);
    SafeAppend(t, w, s, i);
    SafeKeepsInv(t, w1, i);
    ExecAllAppend(w, s, i);
    ExecAllRows(w1, i);
    UpdateTimingSafe(t, ExecAll(w1, i), n);
    SafeAppend(t, w, s + i, UpdateTiming(t, ExecAll(w1, i), n));
  }

  lemma NothingIsSafe(t: Terms, w: World)
    requires |w.rows| == |t.steps|
    ensures Safe(t, w, [])
  {
  }

  /** What looking for the peer's leg may save. */
  lemma InboundSaves(t: Terms, w: World, n: nat, a: Answers)
    requires 1 <= n <= |w.rows|
    ensures forall f :: f in CheckInbound(t, w, n, a) ==>
              f.Save? && f.n >= n && (f.n == n ==> f.row.envelope == w.rows[n - 1].envelope)
  {
    hide InSettled;
  }

  lemma SecondMoverGate(t: Terms, w: World, n: nat, a: Answers)
    requires Inv(t, w) && IsStep(t, n) && |w.rows| == |t.steps| && SpentIsFinal(w, n)
    requires forall m :: 1 <= m < n ==> StepDone(w.rows, m)
    ensures var w1 := ExecAll(w, CheckInbound(t, w, n, a));
            && |w1.rows| == |t.steps| && Inv(t, w1) && SpentIsFinal(w1, n)
            && (RowOf(w1, n).inSettled ==> Gate(t, w1, n))
  {
    var i := CheckInbound(t, w, n, a);
    var w1 := ExecAll(w, i);
    InboundSaves(t, w, n, a);
    hide Inv, Safe, CheckInbound, SpentIsFinal, Gate, StepDone;
    CheckInboundSafe(t, w, n, a);
    SafeKeepsInv(t, w, i);
    OtherRowsSettledStays(t, w, i, n);
    SpentIsFinalStays(t, w, i, n);
    if RowOf(w1, n).inSettled {
      RowsOpenGate(t, w1, n);
    }
  }

  lemma SecondMoverSafe(t: Terms, w: World, n: nat, a: Answers)
    requires Inv(t, w) && IsStep(t, n) && |w.rows| == |t.steps| && SpentIsFinal(w, n) && !MovesFirst(n, t.opens)
    requires forall m :: 1 <= m < n ==> StepDone(w.rows, m)
    ensures Safe(t, w, AdvanceStep(t, w, n, a))
  {
    hide Inv, Safe, SendLeg, CheckInbound, UpdateTiming, SpentIsFinal, Gate;
    var i := CheckInbound(t, w, n, a);
    CheckInboundSafe(t, w, n, a);
    SecondMoverGate(t, w, n, a);
    var w1 := ExecAll(w, i);
    var s := if RowOf(w1, n).inSettled then SendLeg(t, w1, n, a) else [];
    NothingIsSafe(t, w1);
    if RowOf(w1, n).inSettled {
      SendLegSafe(t, w1, n, a);
    }
    SafeAppend(t, w, i, s);
    SafeKeepsInv(t, w1, s);
    ExecAllAppend(w, i, s);
    ExecAllRows(w1, s);
    UpdateTimingSafe(t, ExecAll(w1, s), n);
    SafeAppend(t, w, i + s, UpdateTiming(t, ExecAll(w1, s), n));
  }

  lemma AdvanceStepSafe(t: Terms, w: World, n: nat, a: Answers)
    requires Inv(t, w) && IsStep(t, n) && SpentIsFinal(w, n)
    requires forall m :: 1 <= m < n ==> StepDone(w.rows, m)
    ensures Safe(t, w, AdvanceStep(t, w, n, a))
  {
    assert |w.rows| == |t.steps|;
    hide Inv, Safe, AdvanceStep;
    if MovesFirst(n, t.opens) {
      FirstMoverSafe(t, w, n, a);
    } else {
      SecondMoverSafe(t, w, n, a);
    }
  }

  lemma AdvanceSafe(t: Terms, w: World, a: Answers)
    requires Inv(t, w) && forall n :: 1 <= n <= |w.rows| ==> SpentIsFinal(w, n)
    ensures Safe(t, w, AdvancePlan(t, w, a))
  {
    var n := FirstOpen(w.rows, 1);
    if n != 0 {
      AdvanceStepSafe(t, w, n, a);
    }
  }

  lemma ReconcileSafe(t: Terms, w: World, n: nat, a: Answers)
    requires Inv(t, w) && IsStep(t, n)
    ensures Safe(t, w, ReconcileStep(t, w, n, a))
  {
    CheckOutboundSafe(t, w, n);
    var c := CheckOutbound(t, w, n);
    SafeKeepsInv(t, w, c);
    var w1 := ExecAll(w, c);
    var found := FindPayment(t, w1, n);
    if RowOf(w1, n).txId.None? && found.Some? {
      FoundMeansDepth(t, w1, n);
      RecordOutboundSafe(t, w1, n, found.value.env, found.value.depth);
    }
    var r := if RowOf(w1, n).txId.None? && found.Some?
             then RecordOutbound(t, w1, n, found.value.env, found.value.depth) else [];
    SafeAppend(t, w, c, r);
    SafeKeepsInv(t, w1, r);
    ExecAllAppend(w, c, r);
    CheckInboundSafe(t, ExecAll(w1, r), n, a);
    SafeAppend(t, w, c + r, CheckInbound(t, ExecAll(w1, r), n, a));
  }
}
