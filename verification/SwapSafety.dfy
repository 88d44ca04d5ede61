/**
 What every run of the engine keeps, against any counterparty, any chain movement between effects
 and a crash after any effect: each step is paid at most once, and at most one step is outstanding.
 */
module SwapSafety {
  import opened Collections
  import opened Schedule
  import opened SwapModel

  // ----- The invariant -----------------------------------------------------------------

  ghost predicate BothSettled(t: Terms, w: World, n: nat) { OutSettled(t, w, n) && InSettled(t, w, n) }

  /** When a step's payment may go out: every earlier step settled both ways, and the peer's leg first if the peer opens. */
  ghost predicate Gate(t: Terms, w: World, n: nat) {
    && IsStep(t, n)
    && (forall m :: 1 <= m < n ==> BothSettled(t, w, m))
    && (!MovesFirst(n, t.opens) ==> InSettled(t, w, n))
  }

  /** The step's LAPSE leg is settled in a block no later than `h`. */
  ghost predicate LapseLegBy(t: Terms, w: World, n: nat, h: int) {
    if t.sendsLapse then OutSettled(t, w, n) && exists i: nat :: PaidAt(w, n, i) && w.account[i].height <= h
    else InSettled(t, w, n) && w.inbound[n] <= h
  }

  /** A deadline is never earlier than the one the public heights give. */
  ghost predicate DeadlineFits(t: Terms, w: World, n: nat, deadline: int) {
    if n <= 1 then deadline >= t.acceptedHeight + StepBudget(t)
    else LapseLegBy(t, w, n - 1, deadline - StepBudget(t))
  }

  /** Its nonce is not finally spent, so it may yet be applied, now or after a reorg. */
  predicate Live(w: World, e: Envelope) { e.seqNo > w.final }

  ghost predicate FinallyPaid(w: World, n: nat) { exists i: nat :: i < w.final && PaidAt(w, n, i) }

  ghost predicate EnvelopeFits(t: Terms, w: World, e: Envelope) {
    && Gate(t, w, e.step) && e.amount == Amount(t, e.step)
    && (FinallyPaid(w, e.step) ==> !Live(w, e))
  }

  ghost predicate NoLiveEnvelope(w: World, n: nat) {
    forall x :: x in w.released && x.step == n ==> !Live(w, x)
  }

  /** Applied, and past any reorg. */
  ghost predicate FinallyApplied(w: World, e: Envelope) { AppliedOn(w, e) && e.seqNo <= w.final }

  ghost predicate RowFits(t: Terms, w: World, n: nat, row: Row) {
    && (row.envelope.Some? ==>
          && row.envelope.value.step == n && EnvelopeFits(t, w, row.envelope.value)
          && row.out != Pending && row.out != Dead)
    && (row.txId.Some? ==> row.txId.value.step == n)
    && (row.out == Settled ==> OutSettled(t, w, n) && row.txId.Some? && FinallyApplied(w, row.txId.value))
    && (row.inSettled ==> InSettled(t, w, n))
    && (row.completed != 0 ==> LapseLegBy(t, w, n, row.completed))
    && (row.deadline != 0 ==> DeadlineFits(t, w, n, row.deadline))
  }

  ghost predicate StoredFits(t: Terms, w: World, n: nat)
    requires 1 <= n <= |w.rows|
  {
    RowFits(t, w, n, w.rows[n - 1])
  }

  /**
   Every applied payment was released, under its own nonce; a payment at settlement depth is final, and
   on Stellar so is whatever has been applied.
   */
  ghost predicate AccountFits(t: Terms, w: World) {
    && w.final <= |w.account| && (!t.sendsLapse ==> w.final == |w.account|)
    && (forall n: nat, i: nat | PaidAt(w, n, i) ::
          Depth(t.sendsLapse, w.tip, w.account[i].height) >= RequiredDepth(t, t.sendsLapse) ==> i < w.final)
    && forall i: nat {:trigger w.account[i]} :: i < |w.account| ==>
      && w.account[i].height <= w.tip
      && (w.account[i].tx.Pay? ==> w.account[i].tx.env in w.released && w.account[i].tx.env.seqNo == i + 1)
  }

  ghost predicate PoolFits(w: World) { forall x :: x in w.pool && x.Pay? ==> x.env in w.released }

  ghost predicate InboundFits(w: World) { forall n :: n in w.inbound ==> w.inbound[n] <= w.tip }

  /** Anything released that could still apply is the one envelope its step's row stores. */
  ghost predicate ReleasedFits(t: Terms, w: World)
    requires |w.rows| == |t.steps|
  {
    forall e :: e in w.released ==>
      EnvelopeFits(t, w, e) && (Live(w, e) ==> w.rows[e.step - 1].envelope == Some(e))
  }

  ghost predicate PaidOnce(w: World) {
    forall n: nat, i: nat, j: nat :: PaidAt(w, n, i) && PaidAt(w, n, j) ==> i == j
  }

  ghost predicate Inv(t: Terms, w: World) {
    && TermsOk(t) && |w.rows| == |t.steps|
    && AccountFits(t, w) && PoolFits(w) && InboundFits(w) && PaidOnce(w)
    && ReleasedFits(t, w)
    && forall n :: 1 <= n <= |w.rows| ==> StoredFits(t, w, n)
  }

  // ----- The chain moves, the counterparty acts -----------------------------------------

  /**
   Anything outside this node: blocks arrive or are reorged out, any released envelope or any other
   payment of this account takes the next nonce, the peer pays or does not, the mempool changes.
   Final payments stay, and so does the settlement of a settled leg.
   */
  ghost predicate Moves(t: Terms, w: World, v: World) {
    && w.final <= |w.account| && w.final <= v.final <= |v.account|
    && w.account[..w.final] == v.account[..w.final]
    && w.released == v.released && w.rows == v.rows
    && AccountFits(t, v) && PoolFits(v) && InboundFits(v)
    && (forall n: nat :: OutSettled(t, w, n) ==> OutSettled(t, v, n))
    && (forall n: nat :: InSettled(t, w, n) ==> InSettled(t, v, n) && v.inbound[n] == w.inbound[n])
  }

  lemma GateStays(t: Terms, w: World, v: World, n: nat)
    requires Moves(t, w, v) && Gate(t, w, n)
    ensures Gate(t, v, n)
  {
    forall m | 1 <= m < n
      ensures BothSettled(t, v, m)
    {
      assert BothSettled(t, w, m);
    }
  }

  lemma LapseLegStays(t: Terms, w: World, v: World, n: nat, h: int)
    requires Moves(t, w, v) && AccountFits(t, w) && PaidOnce(w) && LapseLegBy(t, w, n, h)
    ensures LapseLegBy(t, v, n, h)
  {
    if t.sendsLapse {
      var i: nat :| PaidAt(w, n, i) && w.account[i].height <= h;
      var j: nat :| PaidAt(w, n, j)
        && Depth(t.sendsLapse, w.tip, w.account[j].height) >= RequiredDepth(t, t.sendsLapse);
      assert v.account[..w.final][i] == w.account[..w.final][i];
      assert PaidAt(v, n, i);
    }
  }

  /** A payment beyond the final ones was made by the one envelope its step's row stores. */
  lemma BeyondFinalIsStored(t: Terms, w: World, v: World, n: nat, i: nat)
    requires Moves(t, w, v) && |w.rows| == |t.steps| && ReleasedFits(t, w) && PaidAt(v, n, i)
    ensures IsStep(t, n) && v.account[i].tx.env.seqNo == i + 1
    ensures i >= w.final ==> w.rows[n - 1].envelope == Some(v.account[i].tx.env) && !FinallyPaid(w, n)
    ensures i < w.final ==> PaidAt(w, n, i) && FinallyPaid(w, n)
  {
    var e := v.account[i].tx.env;
    assert EnvelopeFits(t, w, e);
    if i < w.final {
      assert v.account[..w.final][i] == w.account[..w.final][i];
      assert PaidAt(w, n, i);
    }
  }

  lemma EnvelopeStays(t: Terms, w: World, v: World, e: Envelope)
    requires Moves(t, w, v) && |w.rows| == |t.steps| && ReleasedFits(t, w) && EnvelopeFits(t, w, e)
    requires w.rows[e.step - 1].envelope == Some(e) || e in w.released || NoLiveEnvelope(w, e.step)
    ensures EnvelopeFits(t, v, e)
  {
    GateStays(t, w, v, e.step);
    if FinallyPaid(v, e.step) {
      var i: nat :| i < v.final && PaidAt(v, e.step, i);
      BeyondFinalIsStored(t, w, v, e.step, i);
    }
  }

  lemma FinalStays(t: Terms, w: World, v: World, e: Envelope)
    requires Moves(t, w, v) && FinallyApplied(w, e)
    ensures FinallyApplied(v, e)
  {
    assert v.account[..w.final][e.seqNo - 1] == w.account[..w.final][e.seqNo - 1];
  }

  lemma RowStays(t: Terms, w: World, v: World, n: nat, row: Row)
    requires Moves(t, w, v) && AccountFits(t, w) && PaidOnce(w)
    requires |w.rows| == |t.steps| && ReleasedFits(t, w) && IsStep(t, n) && RowFits(t, w, n, row)
    requires w.rows[n - 1].envelope == row.envelope || NoLiveEnvelope(w, n)
    ensures RowFits(t, v, n, row)
  {
    if row.envelope.Some? {
      EnvelopeStays(t, w, v, row.envelope.value);
    }
    if row.out == Settled {
      FinalStays(t, w, v, row.txId.value);
    }
    if row.completed != 0 {
      LapseLegStays(t, w, v, n, row.completed);
    }
    if row.deadline != 0 && n > 1 {
      LapseLegStays(t, w, v, n - 1, row.deadline - StepBudget(t));
    }
  }

  lemma PaidOnceStays(t: Terms, w: World, v: World)
    requires Moves(t, w, v) && |w.rows| == |t.steps| && ReleasedFits(t, w) && PaidOnce(w)
    ensures PaidOnce(v)
  {
    forall n: nat, i: nat, j: nat | PaidAt(v, n, i) && PaidAt(v, n, j)
      ensures i == j
    {
      BeyondFinalIsStored(t, w, v, n, i);
      BeyondFinalIsStored(t, w, v, n, j);
    }
  }

  /** Nothing outside this node can break the invariant. */
  lemma MovesKeepInv(t: Terms, w: World, v: World)
    requires Inv(t, w) && Moves(t, w, v)
    ensures Inv(t, v)
  {
    PaidOnceStays(t, w, v);
    forall e | e in v.released
      ensures EnvelopeFits(t, v, e) && (Live(v, e) ==> v.rows[e.step - 1].envelope == Some(e))
    {
      EnvelopeStays(t, w, v, e);
    }
    forall n | 1 <= n <= |v.rows|
      ensures StoredFits(t, v, n)
    {
      assert StoredFits(t, w, n);
      RowStays(t, w, v, n, w.rows[n - 1]);
    }
  }

  // ----- Effects that are safe whenever they run ------------------------------------------

  /** A save may keep the stored envelope, or replace it when nothing released for the step can still apply. */
  ghost predicate Guard(t: Terms, w: World, f: Effect)
    requires |w.rows| == |t.steps|
  {
    match f
    case Submit(e, _) => IsStep(t, e.step) && w.rows[e.step - 1].envelope == Some(e)
    case Save(n, row) =>
      && IsStep(t, n) && RowFits(t, w, n, row)
      && (row.envelope == w.rows[n - 1].envelope || NoLiveEnvelope(w, n))
  }

  ghost predicate Safe(t: Terms, w: World, fs: seq<Effect>)
    requires |w.rows| == |t.steps|
    decreases fs
  {
    fs == [] || (Guard(t, w, fs[0]) && Safe(t, Exec(w, fs[0]), fs[1..]))
  }

  lemma SettledIgnoresEffects(t: Terms, w: World, f: Effect)
    ensures var v := Exec(w, f);
            forall n: nat :: && (Paid(v, n) == Paid(w, n)) && (FinallyPaid(v, n) == FinallyPaid(w, n))
                             && (OutSettled(t, v, n) == OutSettled(t, w, n))
                             && (InSettled(t, v, n) == InSettled(t, w, n))
                             && (Gate(t, v, n) == Gate(t, w, n))
  {
    var v := Exec(w, f);
    assert forall n: nat, i: nat :: PaidAt(v, n, i) == PaidAt(w, n, i);
    forall n: nat
      ensures OutSettled(t, v, n) == OutSettled(t, w, n)
      ensures Paid(v, n) == Paid(w, n) && FinallyPaid(v, n) == FinallyPaid(w, n)
    {
    }
    forall n: nat
      ensures BothSettled(t, v, n) == BothSettled(t, w, n)
    {
    }
  }

  lemma RowIgnoresEffects(t: Terms, w: World, f: Effect, n: nat, row: Row)
    ensures RowFits(t, Exec(w, f), n, row) == RowFits(t, w, n, row)
  {
    SettledIgnoresEffects(t, w, f);
    var v := Exec(w, f);
    assert forall m: nat, i: nat :: PaidAt(v, m, i) == PaidAt(w, m, i);
  }

  lemma GuardedKeepsReleases(t: Terms, w: World, f: Effect)
    requires Inv(t, w) && Guard(t, w, f)
    ensures |Exec(w, f).rows| == |t.steps| && ReleasedFits(t, Exec(w, f))
  {
    var v := Exec(w, f);
    SettledIgnoresEffects(t, w, f);
    if f.Submit? {
      assert StoredFits(t, w, f.env.step);
    }
    hide RowFits, AccountFits, PaidOnce, Gate, FinallyPaid;
    forall e | e in v.released
      ensures EnvelopeFits(t, v, e) && (Live(v, e) ==> v.rows[e.step - 1].envelope == Some(e))
    {
      assert EnvelopeFits(t, w, e);
    }
  }

  lemma GuardedKeepsRows(t: Terms, w: World, f: Effect)
    requires Inv(t, w) && Guard(t, w, f)
    ensures forall m :: 1 <= m <= |Exec(w, f).rows| ==> StoredFits(t, Exec(w, f), m)
  {
    var v := Exec(w, f);
    hide RowFits, AccountFits, PaidOnce, ReleasedFits, PoolFits, InboundFits, NoLiveEnvelope;
    forall m | 1 <= m <= |v.rows|
      ensures StoredFits(t, v, m)
    {
      assert StoredFits(t, w, m);
      RowIgnoresEffects(t, w, f, m, v.rows[m - 1]);
    }
  }

  /** A guarded effect keeps the invariant. */
  lemma GuardedKeepsInv(t: Terms, w: World, f: Effect)
    requires Inv(t, w) && Guard(t, w, f)
    ensures Inv(t, Exec(w, f))
  {
    var v := Exec(w, f);
    assert forall m: nat, i: nat :: PaidAt(v, m, i) == PaidAt(w, m, i);
    GuardedKeepsReleases(t, w, f);
    GuardedKeepsRows(t, w, f);
    hide RowFits, ReleasedFits, StoredFits;
  }

  lemma GuardStays(t: Terms, w: World, v: World, f: Effect)
    requires Inv(t, w) && Moves(t, w, v) && Guard(t, w, f)
    ensures Guard(t, v, f)
  {
    match f {
      case Submit(_, _) =>
      case Save(n, row) => RowStays(t, w, v, n, row);
    }
  }

  lemma EffectsCommuteWithMoves(t: Terms, w: World, v: World, f: Effect)
    requires |w.rows| == |t.steps| && Moves(t, w, v)
    ensures Moves(t, Exec(w, f), Exec(v, f))
  {
    SettledIgnoresEffects(t, w, f);
    SettledIgnoresEffects(t, v, f);
    var x, y := Exec(w, f), Exec(v, f);
    assert forall n: nat, i: nat :: PaidAt(y, n, i) == PaidAt(v, n, i);
  }

  /** Effects chosen on one view stay safe however the chains move before they run. */
  lemma {:induction false} SafeStays(t: Terms, w: World, v: World, fs: seq<Effect>)
    requires Inv(t, w) && Moves(t, w, v) && Safe(t, w, fs)
    ensures Safe(t, v, fs)
    decreases fs
  {
    if fs != [] {
      GuardStays(t, w, v, fs[0]);
      EffectsCommuteWithMoves(t, w, v, fs[0]);
      GuardedKeepsInv(t, w, fs[0]);
      SafeStays(t, Exec(w, fs[0]), Exec(v, fs[0]), fs[1..]);
    }
  }

  lemma {:induction false} SafeKeepsInv(t: Terms, w: World, fs: seq<Effect>)
    requires Inv(t, w) && Safe(t, w, fs)
    ensures Inv(t, ExecAll(w, fs))
    decreases fs
  {
    if fs != [] {
      GuardedKeepsInv(t, w, fs[0]);
      SafeKeepsInv(t, Exec(w, fs[0]), fs[1..]);
    }
  }

  lemma {:induction false} SafeAppend(t: Terms, w: World, a: seq<Effect>, b: seq<Effect>)
    requires Inv(t, w) && Safe(t, w, a)
    requires |ExecAll(w, a).rows| == |t.steps| && Safe(t, ExecAll(w, a), b)
    ensures Safe(t, w, a + b)
    decreases a
  {
    hide Inv, Guard;
    if a == [] {
      assert a + b == b;
    } else {
      assert (a + b)[1..] == a[1..] + b;
      GuardedKeepsInv(t, w, a[0]);
      SafeAppend(t, Exec(w, a[0]), a[1..], b);
    }
  }
}
