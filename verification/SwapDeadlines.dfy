/**
 When a completed step's successor has its deadline: always, unless a crash falls between the two saves
 that complete the step. The deadline is then never set again, and the peer is never held delinquent over
 that step.
 */
module SwapDeadlines {
  import opened Collections
  import opened Schedule
  import opened SwapModel
  import opened SwapSafety
  import opened SwapPlans
  import opened SwapRuns
  import opened SwapHonest
  import opened SwapRebuild
  import opened Blame
  import opened HonestRuns

  // ----- When deadlines are kept ------------------------------------------------------------------------------

  /** Every step marked complete has a successor with a deadline, or none. */
  predicate Timed(rows: seq<Row>) { forall n :: 1 <= n < |rows| ==> TimedAt(rows, n) }

  predicate TimedAt(rows: seq<Row>, n: nat)
    requires 1 <= n < |rows|
  {
    rows[n - 1].completed != 0 ==> rows[n].deadline != 0
  }

  /** True of the rows now and after each of these effects. */
  predicate TimedThroughout(w: World, fs: seq<Effect>)
    decreases fs
  {
    Timed(w.rows) && (fs == [] || TimedThroughout(Exec(w, fs[0]), fs[1..]))
  }

  lemma {:induction false} TimedAppend(w: World, a: seq<Effect>, b: seq<Effect>)
    requires TimedThroughout(w, a) && TimedThroughout(ExecAll(w, a), b)
    ensures TimedThroughout(w, a + b)
    decreases a
  {
    if a == [] {
      assert a + b == b;
    } else {
      assert (a + b)[1..] == a[1..] + b;
      TimedAppend(Exec(w, a[0]), a[1..], b);
    }
  }

  lemma {:induction false} TimedAtTheEnd(w: World, fs: seq<Effect>)
    requires TimedThroughout(w, fs)
    ensures Timed(ExecAll(w, fs).rows)
    decreases fs
  {
    if fs != [] {
      TimedAtTheEnd(Exec(w, fs[0]), fs[1..]);
    }
  }

  /** An effect that touches no row's completion or deadline. */
  predicate KeepsTimes(rows: seq<Row>, f: Effect) {
    f.Save? && 1 <= f.n <= |rows| ==> f.row.completed == rows[f.n - 1].completed && f.row.deadline == rows[f.n - 1].deadline
  }

  predicate AllKeepTimes(rows: seq<Row>, fs: seq<Effect>) { forall f :: f in fs ==> KeepsTimes(rows, f) }

  lemma {:induction false} KeptTimes(w: World, rows: seq<Row>, fs: seq<Effect>)
    requires |w.rows| == |rows| && forall i :: 0 <= i < |rows| ==> SameTimes(w.rows[i], rows[i])
    requires AllKeepTimes(rows, fs) && Timed(rows)
    ensures TimedThroughout(w, fs)
    decreases fs
  {
    assert Timed(w.rows) by {
      forall n | 1 <= n < |w.rows|
        ensures TimedAt(w.rows, n)
      {
        assert TimedAt(rows, n);
      }
    }
    if fs != [] {
      assert fs[0] in fs && forall f :: f in fs[1..] ==> f in fs;
      assert KeepsTimes(rows, fs[0]);
      KeptTimes(Exec(w, fs[0]), rows, fs[1..]);
    }
  }

  predicate SameTimes(r: Row, s: Row) { r.completed == s.completed && r.deadline == s.deadline }

  lemma AllKeptTimes(w: World, fs: seq<Effect>)
    requires AllKeepTimes(w.rows, fs) && Timed(w.rows)
    ensures TimedThroughout(w, fs)
  {
    KeptTimes(w, w.rows, fs);
  }

  /** Taking a completion back clears it before the deadline it gave. */
  lemma UnpropagateTimed(t: Terms, w: World, n: nat, row: Row)
    requires 1 <= n <= |w.rows| && w.rows[n - 1] == row && Timed(w.rows)
    ensures TimedThroughout(w, Unpropagate(t, w, n, row))
  {
    if row.completed != 0 {
      var x := Exec(w, Save(n, row.(completed := 0)));
      assert Timed(x.rows) by {
        forall m | 1 <= m < |x.rows|
          ensures TimedAt(x.rows, m)
        {
          assert TimedAt(w.rows, m);
        }
      }
      var fs := Unpropagate(t, w, n, row);
      if |fs| == 2 {
        var g := Save(n + 1, RowOf(w, n + 1).(deadline := 0));
        assert fs[1..] == [g] && [g][1..] == [];
        var y := Exec(x, g);
        forall m | 1 <= m < |y.rows|
          ensures TimedAt(y.rows, m)
        {
          assert TimedAt(x.rows, m);
        }
      } else {
        assert fs == [Save(n, row.(completed := 0))] && fs[1..] == [];
      }
    }
  }

  lemma SaveThenUnpropagateTimed(t: Terms, w: World, n: nat, row: Row)
    requires 1 <= n <= |w.rows| && Timed(w.rows) && SameTimes(row, w.rows[n - 1])
    ensures TimedThroughout(w, [Save(n, row)] + Unpropagate(t, w, n, row))
  {
    var f := [Save(n, row)];
    AllKeptTimes(w, f);
    ExecOne(w, f[0]);
    var x := Exec(w, f[0]);
    TimedAtTheEnd(w, f);
    UnpropagateTimed(t, x, n, row);
    UnpropagateRereads(t, w, n, row);
    TimedAppend(w, f, Unpropagate(t, w, n, row));
  }

  lemma OutboundTimed(t: Terms, w: World, n: nat)
    requires 1 <= n <= |w.rows| && Timed(w.rows)
    ensures TimedThroughout(w, CheckOutbound(t, w, n))
  {
    var row := RowOf(w, n);
    hide Timed, TimedThroughout;
    if row.txId.Some? && Confirmations(t, w, row.txId.value).None? {
      SaveThenUnpropagateTimed(t, w, n, row.(out := Submitted));
    } else {
      AllKeptTimes(w, CheckOutbound(t, w, n));
    }
  }

  lemma InboundTimed(t: Terms, w: World, n: nat, a: Answers)
    requires 1 <= n <= |w.rows| && Timed(w.rows)
    ensures TimedThroughout(w, CheckInbound(t, w, n, a))
  {
    var row := RowOf(w, n);
    hide Timed, TimedThroughout;
    if row.inSettled && row.inSeen && (!InSettled(t, w, n) || Shadowed(t, a)) {
      SaveThenUnpropagateTimed(t, w, n, row.(inSettled := false));
    } else {
      AllKeptTimes(w, CheckInbound(t, w, n, a));
    }
  }

  lemma SendTimed(t: Terms, w: World, n: nat, a: Answers)
    requires IsStep(t, n) && |w.rows| == |t.steps| && Timed(w.rows)
    ensures TimedThroughout(w, EnsureSent(t, w, n, a))
  {
    hide Timed, TimedThroughout, FindPayment;
    AllKeptTimes(w, EnsureSent(t, w, n, a));
  }

  /** The call that completes a step and times the next: two saves, and in between them the deadline is missing. */
  predicate TwoSaves(t: Terms, w: World, call: Call, a: Answers)
    requires IsStep(t, call.n) && |w.rows| == |t.steps|
  {
    call.Clock? && |CallPlan(t, w, call, a)| == 2
  }

  lemma ClockTimed(t: Terms, w: World, n: nat)
    requires IsStep(t, n) && |w.rows| == |t.steps| && Timed(w.rows) && w.tip >= 0 && SignedTerms(t)
    ensures |UpdateTiming(t, w, n)| != 2 ==> TimedThroughout(w, UpdateTiming(t, w, n))
    ensures |UpdateTiming(t, w, n)| == 2 ==>
              var f, g := UpdateTiming(t, w, n)[0], UpdateTiming(t, w, n)[1];
              && (w.tip > 0 <==> !Timed(Exec(w, f).rows)) && Timed(Exec(Exec(w, f), g).rows)
  {
    var row, fs := RowOf(w, n), UpdateTiming(t, w, n);
    if fs != [] {
      var f := Save(n, row.(completed := w.tip));
      var x := Exec(w, f);
      forall m | 1 <= m < |x.rows| && m != n
        ensures TimedAt(x.rows, m)
      {
        assert TimedAt(w.rows, m);
      }
      if |fs| == 2 {
        var y := Exec(x, fs[1]);
        forall m | 1 <= m < |y.rows|
          ensures TimedAt(y.rows, m)
        {
          assert m != n ==> TimedAt(x.rows, m);
        }
        assert w.tip > 0 ==> !TimedAt(x.rows, n);
        assert w.tip == 0 ==> TimedAt(x.rows, n);
      } else {
        assert fs == [f] && fs[1..] == [];
        assert n < |x.rows| ==> TimedAt(x.rows, n);
      }
    }
  }

  /** Every call keeps deadlines at every point of being carried out, but for the one between those two saves. */
  lemma CallTimed(t: Terms, w: World, call: Call, a: Answers)
    requires IsStep(t, call.n) && |w.rows| == |t.steps| && Timed(w.rows) && w.tip >= 0 && SignedTerms(t)
    ensures Timed(ExecAll(w, CallPlan(t, w, call, a)).rows)
    ensures !TwoSaves(t, w, call, a) ==> TimedThroughout(w, CallPlan(t, w, call, a))
  {
    var fs := CallPlan(t, w, call, a);
    CallTimedBut(t, w, call, a);
    if TwoSaves(t, w, call, a) {
      assert fs == [fs[0]] + [fs[1]];
      ExecTwo(w, fs[0], fs[1]);
      ClockTimed(t, w, call.n);
    } else {
      hide CallPlan, Timed;
      TimedAtTheEnd(w, fs);
    }
  }

  lemma CallTimedBut(t: Terms, w: World, call: Call, a: Answers)
    requires IsStep(t, call.n) && |w.rows| == |t.steps| && Timed(w.rows) && w.tip >= 0 && SignedTerms(t)
    ensures !TwoSaves(t, w, call, a) ==> TimedThroughout(w, CallPlan(t, w, call, a))
  {
    hide Timed, TimedThroughout, CheckOutbound, CheckInbound, EnsureSent, UpdateTiming, FindPayment, AllKeepTimes;
    match call
    case LookOut(n) => OutboundTimed(t, w, n);
    case Send(n) => SendTimed(t, w, n, a);
    case OwnLegOncePaid(n) => NothingTimed(w);
    case LookIn(n) => InboundTimed(t, w, n, a);
    case LookInOnceSent(n) => InboundTimed(t, w, n, a); NothingTimed(w);
    case Clock(n) => ClockTimed(t, w, n);
    case Recover(n) => RecoverTimed(t, w, n, a); NothingTimed(w);
  }

  lemma NothingTimed(w: World)
    requires Timed(w.rows)
    ensures TimedThroughout(w, [])
  {
  }

  lemma RecoverTimed(t: Terms, w: World, n: nat, a: Answers)
    requires IsStep(t, n) && |w.rows| == |t.steps| && Timed(w.rows)
    ensures TimedThroughout(w, CallPlan(t, w, Recover(n), a))
  {
    hide Timed, TimedThroughout, FindPayment;
    AllKeptTimes(w, CallPlan(t, w, Recover(n), a));
  }

  // ----- Over whole runs --------------------------------------------------------------------------------------

  /** Whenever nothing is left to carry out, every completed step's successor has a deadline. */
  ghost predicate DeadlinesKept(t: Terms, c: Config, events: seq<Event>)
    decreases events
  {
    (c.todo == [] ==> Timed(c.world.rows)) && (events == [] || DeadlinesKept(t, After(t, c, events[0]), events[1..]))
  }

  /** No crash falls where a completed step's successor has no deadline. */
  ghost predicate NoCrashBetween(t: Terms, c: Config, events: seq<Event>)
    decreases events
  {
    events == [] || ((events[0].Crash? ==> Timed(c.world.rows)) && NoCrashBetween(t, After(t, c, events[0]), events[1..]))
  }

  /** No height is negative. */
  predicate Heights(c: Config, events: seq<Event>) {
    c.world.tip >= 0 && forall e :: e in events && e.Outside? ==> e.seen.tip >= 0
  }

  lemma {:induction false} RowsAlone(w: World, v: World, fs: seq<Effect>)
    requires w.rows == v.rows
    ensures ExecAll(w, fs).rows == ExecAll(v, fs).rows
    decreases fs
  {
    if fs != [] {
      RowsAlone(Exec(w, fs[0]), Exec(v, fs[0]), fs[1..]);
    }
  }

  /** What is left to carry out leaves the deadlines kept. */
  ghost predicate WillBeTimed(c: Config) { Timed(ExecAll(c.world, c.todo).rows) }

  lemma EventTimed(t: Terms, c: Config, e: Event)
    requires WillBeTimed(c) && Enabled(t, c, e) && c.world.tip >= 0 && SignedTerms(t)
    requires e.Crash? ==> Timed(c.world.rows)
    ensures WillBeTimed(After(t, c, e))
  {
    match e
    case Advance =>
    case Reconcile(_) =>
    case Next(a) => CallTimed(t, c.world, c.script[0], a);
    case Carry =>
    case Crash =>
    case Outside(seen) => RowsAlone(c.world, Moved(c.world, seen), c.todo);
  }

  lemma {:induction false} KeptUnlessCut(t: Terms, c: Config, events: seq<Event>)
    requires WillBeTimed(c) && Runs(t, c, events) && Heights(c, events) && SignedTerms(t)
    ensures DeadlinesKept(t, c, events) <==> NoCrashBetween(t, c, events)
    decreases events
  {
    if events != [] {
      var e, next := events[0], After(t, c, events[0]);
      assert e in events && forall f :: f in events[1..] ==> f in events;
      assert next.world.tip >= 0 by { TipAfter(t, c, e); }
      hide Timed, Enabled, WillBeTimed;
      if e.Crash? && !Timed(c.world.rows) {
        CutShows(t, next, events[1..]);
      } else {
        EventTimed(t, c, e);
        KeptUnlessCut(t, next, events[1..]);
      }
    }
    assert c.todo == [] ==> Timed(c.world.rows);
  }

  lemma TipAfter(t: Terms, c: Config, e: Event)
    ensures After(t, c, e).world.tip == c.world.tip || (e.Outside? && After(t, c, e).world.tip == e.seen.tip)
  {
    hide CallPlan, ScriptAfter;
  }

  lemma CutShows(t: Terms, c: Config, events: seq<Event>)
    requires c.todo == [] && !Timed(c.world.rows)
    ensures !DeadlinesKept(t, c, events)
  {
  }

  /**
   Exactly when deadlines are kept. Along any run from acceptance, whoever sends what and whatever the
   chains do: whenever nothing is left to carry out, every completed step's successor has a deadline, if
   and only if no crash falls where it has not, and that is only ever between the two saves that complete
   a step.
   */
  lemma DeadlinesKeptIff(t: Terms, c: Config, events: seq<Event>)
    requires AcceptedFresh(t, c) && SignedTerms(t) && Runs(t, c, events) && Heights(c, events)
    ensures DeadlinesKept(t, c, events) <==> NoCrashBetween(t, c, events)
  {
    FreshIsTimed(t, c);
    KeptUnlessCut(t, c, events);
  }

  lemma FreshIsTimed(t: Terms, c: Config)
    requires AcceptedFresh(t, c)
    ensures c.todo == [] && Timed(c.world.rows) && WillBeTimed(c)
  {
    forall n | 1 <= n < |c.world.rows|
      ensures TimedAt(c.world.rows, n)
    {
      assert FreshRow(t, c.world, n);
    }
    assert ExecAll(c.world, c.todo) == c.world;
  }

  // Where that is: with one save left to make, the one that sets the missing deadline.

  predicate OneLeft(w: World, fs: seq<Effect>) {
    && |fs| == 1 && fs[0].Save? && 1 < fs[0].n <= |w.rows|
    && w.rows[fs[0].n - 2].completed != 0 && w.rows[fs[0].n - 1].deadline == 0 && fs[0].row.deadline != 0
    && Timed(Exec(w, fs[0]).rows)
  }

  predicate TwoLeft(w: World, fs: seq<Effect>) {
    && |fs| == 2 && fs[0].Save? && fs[1].Save? && 1 <= fs[0].n && fs[1].n == fs[0].n + 1 <= |w.rows|
    && w.rows[fs[0].n].deadline == 0 && fs[0].row.completed != 0 && fs[1].row.deadline != 0
    && Timed(w.rows) && Timed(Exec(Exec(w, fs[0]), fs[1]).rows)
  }

  predicate OnTrack(w: World, fs: seq<Effect>) { TimedThroughout(w, fs) || TwoLeft(w, fs) || OneLeft(w, fs) }

  lemma CallOnTrack(t: Terms, w: World, call: Call, a: Answers)
    requires IsStep(t, call.n) && |w.rows| == |t.steps| && Timed(w.rows) && w.tip >= 0 && SignedTerms(t)
    ensures OnTrack(w, CallPlan(t, w, call, a))
  {
    if TwoSaves(t, w, call, a) {
      var n, fs := call.n, UpdateTiming(t, w, call.n);
      ClockTimed(t, w, n);
      assert fs == [Save(n, RowOf(w, n).(completed := w.tip)),
                    Save(n + 1, RowOf(w, n + 1).(deadline := w.tip + StepBudget(t)))];
      if w.tip == 0 {
        assert fs[1..] == [fs[1]] && [fs[1]][1..] == [];
        NothingTimed(Exec(Exec(w, fs[0]), fs[1]));
        assert TimedThroughout(Exec(w, fs[0]), [fs[1]]);
      } else {
        hide Timed;
        assert TwoLeft(w, fs);
      }
    } else {
      hide CallPlan, Timed;
      CallTimed(t, w, call, a);
    }
  }

  lemma CarryOnTrack(w: World, fs: seq<Effect>)
    requires OnTrack(w, fs) && fs != []
    ensures OnTrack(Exec(w, fs[0]), fs[1..])
  {
    if TwoLeft(w, fs) {
      assert fs[1..] == [fs[1]];
    } else if OneLeft(w, fs) {
      assert fs[1..] == [];
    }
  }

  lemma {:induction false} TimedAlone(w: World, v: World, fs: seq<Effect>)
    requires w.rows == v.rows
    ensures TimedThroughout(w, fs) == TimedThroughout(v, fs)
    decreases fs
  {
    if fs != [] {
      TimedAlone(Exec(w, fs[0]), Exec(v, fs[0]), fs[1..]);
    }
  }

  lemma EventOnTrack(t: Terms, c: Config, e: Event)
    requires OnTrack(c.world, c.todo) && Enabled(t, c, e) && c.world.tip >= 0 && SignedTerms(t)
    requires e.Crash? ==> Timed(c.world.rows)
    ensures OnTrack(After(t, c, e).world, After(t, c, e).todo)
  {
    match e
    case Advance =>
    case Reconcile(_) =>
    case Next(a) => CallOnTrack(t, c.world, c.script[0], a);
    case Carry => CarryOnTrack(c.world, c.todo);
    case Crash =>
    case Outside(seen) => TimedAlone(c.world, Moved(c.world, seen), c.todo);
  }

  lemma {:induction false} RunOnTrack(t: Terms, c: Config, events: seq<Event>)
    requires OnTrack(c.world, c.todo) && Runs(t, c, events) && Heights(c, events) && SignedTerms(t)
    requires NoCrashBetween(t, c, events)
    ensures OnTrack(EndOf(t, c, events).world, EndOf(t, c, events).todo)
    decreases events
  {
    if events != [] {
      var e, next := events[0], After(t, c, events[0]);
      assert e in events && forall f :: f in events[1..] ==> f in events;
      TipAfter(t, c, e);
      hide Timed, Enabled, OnTrack, After;
      EventOnTrack(t, c, e);
      RunOnTrack(t, next, events[1..]);
    }
  }

  /**
   Until a crash falls there, a completed step is without its successor's deadline only while one save is
   left to make, the second of the two that complete a step, and that save sets it.
   */
  lemma OnlyBetweenTheSaves(t: Terms, c: Config, events: seq<Event>)
    requires AcceptedFresh(t, c) && SignedTerms(t) && Runs(t, c, events) && Heights(c, events)
    requires NoCrashBetween(t, c, events)
    ensures var d := EndOf(t, c, events); !Timed(d.world.rows) ==> OneLeft(d.world, d.todo)
  {
    FreshIsTimed(t, c);
    NothingTimed(c.world);
    RunOnTrack(t, c, events);
  }

  // ----- What stays ---------------------------------------------------------------------------------------

  /** Step n is marked completed, by a final payment and the peer's settled leg, and step n + 1 has no deadline. */
  ghost predicate Lost(t: Terms, w: World, n: nat, id: Envelope) {
    && IsStep(t, n) && n < |w.rows| == |t.steps|
    && w.rows[n - 1].completed != 0 && w.rows[n - 1].inSettled && w.rows[n - 1].txId == Some(id)
    && FinallyApplied(w, id) && w.rows[n].deadline == 0
    && OnlyCopyOf(w.pool, n, id)
  }

  /** A mempool that shows no other payment of the step. */
  ghost predicate OnlyCopyOf(pool: seq<Tx>, n: nat, id: Envelope) {
    forall x :: x in pool && x.Pay? && x.env.step == n ==> x.env == id
  }

  /** An effect that changes none of it. */
  predicate Harmless(f: Effect, n: nat, id: Envelope) {
    match f
    case Submit(e, _) => e.step == n ==> e == id
    case Save(m, row) =>
      && (m == n ==> row.completed != 0 && row.inSettled && row.txId == Some(id))
      && (m == n + 1 ==> row.deadline == 0)
  }

  ghost predicate AllHarmless(fs: seq<Effect>, n: nat, id: Envelope) { forall f :: f in fs ==> Harmless(f, n, id) }

  ghost predicate StaysLost(t: Terms, c: Config, n: nat, id: Envelope) {
    Lost(t, c.world, n, id) && AllHarmless(c.todo, n, id)
  }

  lemma HarmlessKeeps(t: Terms, w: World, f: Effect, n: nat, id: Envelope)
    requires Lost(t, w, n, id) && Harmless(f, n, id)
    ensures Lost(t, Exec(w, f), n, id)
  {
  }

  /** The step's own payment is found whatever the mempool shows, and it is the one on the row. */
  lemma ItsPaymentIsFound(t: Terms, w: World, n: nat, id: Envelope)
    requires Inv(t, w) && Lost(t, w, n, id)
    ensures id.step == n && FindPayment(t, w, n).Some? && FindPayment(t, w, n).value.env == id
    ensures Confirmations(t, w, id).Some? && InSettled(t, w, n)
  {
    assert StoredFits(t, w, n);
    assert PaidAt(w, n, id.seqNo - 1);
    assert w.account[id.seqNo - 1].tx.env in w.released;
    assert EnvelopeFits(t, w, id);
    var pooled, at := FindInPool(Visible(t, w), n, Amount(t, n)), FindOnChain(w.account, n, Amount(t, n));
    if pooled.Some? {
      assert Pay(pooled.value) in w.pool;
    } else {
      assert at.Some? && PaidAt(w, n, at.value);
    }
  }

  lemma HarmlessAppend(a: seq<Effect>, b: seq<Effect>, n: nat, id: Envelope)
    requires AllHarmless(a, n, id) && AllHarmless(b, n, id)
    ensures AllHarmless(a + b, n, id)
  {
    hide Harmless;
  }

  lemma UnpropagateHarmless(t: Terms, w: World, m: nat, row: Row, n: nat, id: Envelope)
    requires Lost(t, w, n, id) && IsStep(t, m) && m != n && (m == n + 1 ==> row.deadline == 0)
    ensures AllHarmless(Unpropagate(t, w, m, row), n, id)
  {
    hide FinallyApplied, OnlyCopyOf;
  }

  lemma OutboundHarmless(t: Terms, w: World, m: nat, n: nat, id: Envelope)
    requires Lost(t, w, n, id) && IsStep(t, m) && Confirmations(t, w, id).Some?
    ensures AllHarmless(CheckOutbound(t, w, m), n, id)
  {
    hide FinallyApplied, OnlyCopyOf, Confirmations;
    var row := RowOf(w, m);
    if m != n {
      UnpropagateHarmless(t, w, m, row.(out := Submitted), n, id);
      HarmlessAppend([Save(m, row.(out := Submitted))], Unpropagate(t, w, m, row.(out := Submitted)), n, id);
    }
    hide Unpropagate;
  }

  lemma InboundHarmless(t: Terms, w: World, m: nat, a: Answers, n: nat, id: Envelope)
    requires Lost(t, w, n, id) && IsStep(t, m) && InSettled(t, w, n) && !Shadowed(t, a)
    ensures AllHarmless(CheckInbound(t, w, m, a), n, id)
  {
    hide FinallyApplied, OnlyCopyOf;
    var row := RowOf(w, m);
    if m != n {
      UnpropagateHarmless(t, w, m, row.(inSettled := false), n, id);
      HarmlessAppend([Save(m, row.(inSettled := false))], Unpropagate(t, w, m, row.(inSettled := false)), n, id);
    }
    hide Unpropagate, InSettled;
  }

  lemma BuildHarmless(t: Terms, w: World, m: nat, row: Row, a: Answers, n: nat, id: Envelope)
    requires IsStep(t, m) && m != n && (m == n + 1 ==> row.deadline == 0)
    ensures AllHarmless(BuildAndSend(t, w, m, row, a), n, id)
  {
    hide NextSeq;
  }

  lemma SendHarmless(t: Terms, w: World, m: nat, a: Answers, n: nat, id: Envelope)
    requires Lost(t, w, n, id) && IsStep(t, m)
    requires FindPayment(t, w, n).Some? && FindPayment(t, w, n).value.env == id
    requires w.rows[m - 1].envelope.Some? ==> w.rows[m - 1].envelope.value.step == m
    ensures AllHarmless(EnsureSent(t, w, m, a), n, id)
  {
    hide FinallyApplied, OnlyCopyOf, FindPayment;
    var row := RowOf(w, m);
    if m != n && HasLiveClaim(row) {
      BuildHarmless(t, w, m, AfterResend(w, row, a), a, n, id);
      HarmlessAppend([Submit(row.envelope.value, a.resent)] + [Save(m, AfterResend(w, row, a))],
                     BuildAndSend(t, w, m, AfterResend(w, row, a), a), n, id);
    } else if m != n {
      BuildHarmless(t, w, m, row, a, n, id);
    }
    hide BuildAndSend;
  }

  lemma RecordHarmless(t: Terms, w: World, m: nat, n: nat, id: Envelope)
    requires Lost(t, w, n, id) && IsStep(t, m)
    ensures AllHarmless(CallPlan(t, w, Recover(m), READY), n, id)
    ensures AllHarmless(UpdateTiming(t, w, m), n, id)
  {
    hide FinallyApplied, OnlyCopyOf, FindPayment;
  }

  lemma CallHarmless(t: Terms, w: World, call: Call, a: Answers, n: nat, id: Envelope)
    requires Inv(t, w) && Lost(t, w, n, id) && IsStep(t, call.n) && !Shadowed(t, a)
    ensures AllHarmless(CallPlan(t, w, call, a), n, id)
  {
    ItsPaymentIsFound(t, w, n, id);
    assert StoredFits(t, w, call.n);
    hide Inv, CheckOutbound, CheckInbound, EnsureSent, UpdateTiming, Confirmations, FindPayment, Lost, Harmless, InSettled;
    OutboundHarmless(t, w, call.n, n, id);
    InboundHarmless(t, w, call.n, a, n, id);
    SendHarmless(t, w, call.n, a, n, id);
    RecordHarmless(t, w, call.n, n, id);
  }

  /** The mempool never shows another payment of the step, nor a copy of a payment of the peer's. */
  ghost predicate Quiet(t: Terms, events: seq<Event>, n: nat, id: Envelope) {
    forall e :: e in events ==> QuietEvent(t, e, n, id)
  }

  ghost predicate QuietEvent(t: Terms, e: Event, n: nat, id: Envelope) {
    (e.Outside? ==> OnlyCopyOf(e.seen.pool, n, id)) && (e.Next? ==> !Shadowed(t, e.answers))
  }

  lemma EventKeepsLost(t: Terms, c: Config, e: Event, n: nat, id: Envelope)
    requires Good(t, c) && StaysLost(t, c, n, id) && Enabled(t, c, e)
    requires QuietEvent(t, e, n, id)
    ensures StaysLost(t, After(t, c, e), n, id)
  {
    match e
    case Advance =>
    case Reconcile(_) =>
    case Next(a) => CallHarmless(t, c.world, c.script[0], a, n, id);
    case Carry =>
      assert c.todo[0] in c.todo;
      HarmlessKeeps(t, c.world, c.todo[0], n, id);
    case Crash =>
    case Outside(seen) => FinalStays(t, c.world, Moved(c.world, seen), id);
  }

  /**
   Once lost the deadline is lost for good: in every later state, as long as the mempool never shows another
   payment of the step before or a copy of the peer's, and where LAPSE goes out no live envelope is given
   up, step n + 1 has no deadline, and while it is the first one open the peer is not held delinquent,
   however long it has been.
   */
  lemma {:induction false} LostForGood(t: Terms, c: Config, events: seq<Event>, n: nat, id: Envelope)
    requires Good(t, c) && StaysLost(t, c, n, id)
    requires Runs(t, c, events) && Spared(t, c, events) && Quiet(t, events, n, id)
    ensures var w := EndOf(t, c, events).world;
            && Lost(t, w, n, id)
            && forall stalled, height :: FirstOpen(w.rows, 1) == n + 1 ==> !Delinquent(stalled, w.rows, height)
    decreases events
  {
    if events != [] {
      assert events[0] in events && forall e :: e in events[1..] ==> e in events;
      assert QuietEvent(t, events[0], n, id);
      hide Good, Enabled, Forgets, Lost, Delinquent, After, OnlyCopyOf;
      if !t.sendsLapse {
        XlmForgetsNothing(t, c, events[0]);
      }
      StepKeeps(t, c, events[0]);
      EventKeepsLost(t, c, events[0], n, id);
      LostForGood(t, After(t, c, events[0]), events[1..], n, id);
    }
  }

  // ----- Every trade of two steps can lose one --------------------------------------------------------------

  /** Both payments of step 1 are there and deep; the row does not know yet. */
  function BothPaid(t: Terms): World
    requires |t.steps| >= 1
  {
    var depth := RequiredDepth(t, true);
    FirstSent(t).(account := [Applied(Pay(FirstEnvelope(t)), depth)], final := 1, tip := depth + depth, pool := [],
                  inbound := map[1 := 0])
  }

  function DoneRow(t: Terms): Row
    requires |t.steps| >= 1
  {
    SentRow(t).(out := Settled, inSeen := true, inSettled := true)
  }

  /** Both legs of step 1 are known to be settled. */
  function BothKnown(t: Terms): World
    requires |t.steps| >= 1
  {
    BothPaid(t).(rows := FirstRow(t, DoneRow(t)))
  }

  lemma BothCanBePaid(t: Terms)
    requires TermsOk(t) && |t.steps| >= 1
    ensures Moves(t, FirstSent(t), BothPaid(t)) && Moved(FirstSent(t), BothPaid(t)) == BothPaid(t)
    ensures FirstOpen(BothPaid(t).rows, 1) == 1
  {
    var w := BothPaid(t);
    assert forall n: nat, i: nat :: PaidAt(w, n, i) ==> n == 1 && i == 0;
    assert forall n: nat, i: nat :: !PaidAt(FirstSent(t), n, i);
  }

  lemma LookOutSettles(t: Terms, w: World)
    requires |t.steps| >= 1 && w == BothPaid(t).(rows := w.rows) && |w.rows| == |t.steps|
    requires w.rows[0].txId == Some(FirstEnvelope(t))
    ensures ExecAll(w, CheckOutbound(t, w, 1)) == w.(rows := w.rows[0 := w.rows[0].(out := Settled)])
  {
    var row := w.rows[0].(out := Settled);
    assert AppliedOn(w, FirstEnvelope(t)) && Pay(FirstEnvelope(t)) !in Visible(t, w);
    assert CheckOutbound(t, w, 1) == [Save(1, row)];
    ExecOne(w, Save(1, row));
  }

  lemma LookInSettles(t: Terms, w: World)
    requires |t.steps| >= 1 && w == BothPaid(t).(rows := w.rows) && |w.rows| == |t.steps|
    requires w.rows[0].inSettled ==> w.rows[0].inSeen
    ensures ExecAll(w, CheckInbound(t, w, 1, READY)) == w.(rows := w.rows[0 := w.rows[0].(inSeen := true, inSettled := true)])
  {
    assert InSettled(t, w, 1);
    LookedIn(t, w);
  }

  /** A pass over step 1 comes to its last call with both legs settled. */
  lemma PassComesToClock(t: Terms, c: Config)
    requires TermsOk(t) && |t.steps| >= 1 && Reaches(t, c, Config(BothPaid(t), [], []))
    ensures Reaches(t, c, Config(BothKnown(t), [], [Clock(1)]))
  {
    var w := BothPaid(t);
    BothCanBePaid(t);
    hide Reaches;
    ReachStep(t, c, Config(w, [], []), Advance);
    var sent := SentRow(t);
    if t.opens {
      var x := w.(rows := w.rows[0 := sent.(out := Settled)]);
      LookOutSettles(t, w);
      LookInSettles(t, x);
      assert x.rows[0 := DoneRow(t)] == FirstRow(t, DoneRow(t));
      assert PassScript(t, w.rows) == [LookOut(1)] + ([Send(1)] + ([LookInOnceSent(1)] + [Clock(1)]));
      hide PassScript, CheckOutbound, CheckInbound;
      StillCallReaches(t, c, w, LookOut(1), [Send(1)] + ([LookInOnceSent(1)] + [Clock(1)]), READY);
      StillCallReaches(t, c, x, Send(1), [LookInOnceSent(1)] + [Clock(1)], READY);
      StillCallReaches(t, c, x, LookInOnceSent(1), [Clock(1)], READY);
    } else {
      LookInSettles(t, w);
      assert w.rows[0 := sent.(inSeen := true, inSettled := true)] == w.rows;
      LookOutSettles(t, w);
      assert w.rows[0 := sent.(out := Settled)] == FirstRow(t, DoneRow(t));
      assert PassScript(t, w.rows) == [LookIn(1)] + ([OwnLegOncePaid(1)] + [Clock(1)]);
      assert [LookOut(1), Send(1)] + [Clock(1)] == [LookOut(1)] + ([Send(1)] + [Clock(1)]);
      hide PassScript, CheckOutbound, CheckInbound;
      StillCallReaches(t, c, w, LookIn(1), [OwnLegOncePaid(1)] + [Clock(1)], READY);
      StillCallReaches(t, c, w, OwnLegOncePaid(1), [Clock(1)], READY);
      StillCallReaches(t, c, w, LookOut(1), [Send(1)] + [Clock(1)], READY);
      StillCallReaches(t, c, BothKnown(t), Send(1), [Clock(1)], READY);
    }
  }

  /** What a crash between the two saves leaves. */
  function HalfTimed(t: Terms): World
    requires |t.steps| >= 1
  {
    BothKnown(t).(rows := FirstRow(t, DoneRow(t).(completed := BothKnown(t).tip)))
  }

  lemma HalfTimedIsLost(t: Terms)
    requires TermsOk(t) && |t.steps| >= 2
    ensures Lost(t, HalfTimed(t), 1, FirstEnvelope(t)) && FirstOpen(HalfTimed(t).rows, 1) == 2
    ensures var f, g := Save(1, DoneRow(t).(completed := BothKnown(t).tip)),
                        Save(2, FreshRows(t)[1].(deadline := BothKnown(t).tip + StepBudget(t)));
            && CallPlan(t, BothKnown(t), Clock(1), READY) == [f] + [g]
            && Exec(BothKnown(t), f) == HalfTimed(t)
  {
    assert !StepDone(HalfTimed(t).rows, 2) && StepDone(HalfTimed(t).rows, 1);
  }

  /** For every trade of two steps or more there is a careful run from acceptance, one crash in it, that loses step 2's deadline. */
  lemma SomeRunLosesDeadline(t: Terms)
    requires TermsOk(t) && |t.steps| >= 2
    ensures exists c, events ::
              && AcceptedFresh(t, c) && Runs(t, c, events) && Careful(t, c, events)
              && StaysLost(t, EndOf(t, c, events), 1, FirstEnvelope(t))
              && FirstOpen(EndOf(t, c, events).world.rows, 1) == 2
  {
    var c := Accepted(t);
    AcceptedIsFresh(t);
    FirstSendGoesOut(t);
    BothCanBePaid(t);
    ReachStep(t, c, Config(FirstSent(t), [], []), Outside(BothPaid(t)));
    PassComesToClock(t, c);
    HalfTimedIsLost(t);
    HalfTimedIsReached(t, c);
    var d := Config(HalfTimed(t), [], []);
    hide Lost, HalfTimed, Accepted;
    var events :| Runs(t, c, events) && Careful(t, c, events) && EndOf(t, c, events) == d;
    assert StaysLost(t, d, 1, FirstEnvelope(t));
  }

  lemma HalfTimedIsReached(t: Terms, c: Config)
    requires TermsOk(t) && |t.steps| >= 2 && Reaches(t, c, Config(BothKnown(t), [], [Clock(1)]))
    ensures Reaches(t, c, Config(HalfTimed(t), [], []))
  {
    HalfTimedIsLost(t);
    var w, plan := BothKnown(t), CallPlan(t, BothKnown(t), Clock(1), READY);
    var d := Config(w, plan, []);
    assert |w.rows| == |t.steps| && |HalfTimed(t).rows| == |t.steps| && [Clock(1)][1..] == [];
    hide Reaches, Lost, HalfTimed, BothKnown, CallPlan;
    ReachStep(t, c, Config(w, [], [Clock(1)]), Next(READY));
    ReachStep(t, c, d, Carry);
    ReachStep(t, c, Config(HalfTimed(t), plan[1..], []), Crash);
  }
}
