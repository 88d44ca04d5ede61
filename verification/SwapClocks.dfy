/**
 What each deadline is: one budget after the height the step before was completed at, and none while that
 step is not complete. Exactly a crash between two saves leaves anything else, missing or stale.
 */
module SwapClocks {
  import opened Collections
  import opened Schedule
  import opened SwapModel
  import opened SwapSafety
  import opened SwapPlans
  import opened SwapRuns
  import opened SwapHonest
  import opened SwapRebuild
  import opened HonestRuns
  import opened SwapDeadlines
  import opened BlameRuns

  predicate ExactAt(t: Terms, rows: seq<Row>, n: nat)
    requires 1 <= n < |rows|
  {
    rows[n].deadline == if rows[n - 1].completed == 0 then 0 else rows[n - 1].completed + StepBudget(t)
  }

  /** Every deadline but the first is one budget after the completion before it, or neither is there. */
  predicate Exact(t: Terms, rows: seq<Row>) { forall n :: 1 <= n < |rows| ==> ExactAt(t, rows, n) }

  lemma {:induction false} EndTimes(w: World, rows: seq<Row>, fs: seq<Effect>)
    requires |w.rows| == |rows| && (forall i :: 0 <= i < |rows| ==> SameTimes(w.rows[i], rows[i])) && AllKeepTimes(rows, fs)
    ensures var v := ExecAll(w, fs).rows; |v| == |rows| && forall i :: 0 <= i < |rows| ==> SameTimes(v[i], rows[i])
    decreases fs
  {
    if fs != [] {
      assert fs[0] in fs && forall f :: f in fs[1..] ==> f in fs;
      assert KeepsTimes(rows, fs[0]);
      EndTimes(Exec(w, fs[0]), rows, fs[1..]);
    }
  }

  lemma KeptExact(t: Terms, w: World, fs: seq<Effect>)
    requires AllKeepTimes(w.rows, fs) && Exact(t, w.rows)
    ensures Exact(t, ExecAll(w, fs).rows)
  {
    EndTimes(w, w.rows, fs);
    var v := ExecAll(w, fs).rows;
    forall n | 1 <= n < |v|
      ensures ExactAt(t, v, n)
    {
      assert ExactAt(t, w.rows, n) && SameTimes(v[n], w.rows[n]) && SameTimes(v[n - 1], w.rows[n - 1]);
    }
  }

  /** A completion taken back takes the deadline it gave with it. */
  lemma TakenBackExact(t: Terms, w: World, n: nat, row: Row)
    requires 1 <= n <= |w.rows| && Exact(t, w.rows) && SameTimes(row, w.rows[n - 1])
    ensures Exact(t, ExecAll(w, [Save(n, row)] + Unpropagate(t, w, n, row)).rows)
  {
    var f := Save(n, row);
    var x := Exec(w, f);
    assert n < |w.rows| ==> ExactAt(t, w.rows, n);
    ExecOne(w, f);
    ExecAllAppend(w, [f], Unpropagate(t, w, n, row));
    UnpropagateRereads(t, w, n, row);
    UnpropagateExact(t, x, w.rows, n, row);
  }

  lemma UnpropagateExact(t: Terms, x: World, rows: seq<Row>, n: nat, row: Row)
    requires |x.rows| == |rows| && 1 <= n <= |rows| && x.rows == rows[n - 1 := row] && SameTimes(row, rows[n - 1])
    requires Exact(t, rows)
    ensures Exact(t, ExecAll(x, Unpropagate(t, x, n, row)).rows)
  {
    var fs := Unpropagate(t, x, n, row);
    assert n < |rows| ==> ExactAt(t, rows, n);
    if |fs| == 2 {
      assert fs == [fs[0]] + [fs[1]];
      ExecTwo(x, fs[0], fs[1]);
    } else if |fs| == 1 {
      ExecOne(x, fs[0]);
      assert fs == [fs[0]];
    }
    var v := ExecAll(x, fs).rows;
    forall m | 1 <= m < |v|
      ensures ExactAt(t, v, m)
    {
      assert ExactAt(t, rows, m);
    }
  }

  lemma ClockExact(t: Terms, w: World, n: nat)
    requires 1 <= n <= |w.rows| && Exact(t, w.rows) && SignedTerms(t) && w.tip > 0
    ensures Exact(t, ExecAll(w, UpdateTiming(t, w, n)).rows)
  {
    var fs := UpdateTiming(t, w, n);
    assert n < |w.rows| ==> ExactAt(t, w.rows, n);
    if |fs| == 2 {
      assert fs == [fs[0]] + [fs[1]];
      ExecTwo(w, fs[0], fs[1]);
    } else if |fs| == 1 {
      ExecOne(w, fs[0]);
      assert fs == [fs[0]];
    }
    var v := ExecAll(w, fs).rows;
    forall m | 1 <= m < |v|
      ensures ExactAt(t, v, m)
    {
      assert ExactAt(t, w.rows, m);
    }
  }

  lemma OutboundExact(t: Terms, w: World, n: nat)
    requires 1 <= n <= |w.rows| && Exact(t, w.rows)
    ensures Exact(t, ExecAll(w, CheckOutbound(t, w, n)).rows)
  {
    var row := RowOf(w, n);
    hide Exact, Unpropagate;
    if row.txId.Some? && Confirmations(t, w, row.txId.value).None? {
      TakenBackExact(t, w, n, row.(out := Submitted));
    } else {
      KeptExact(t, w, CheckOutbound(t, w, n));
    }
  }

  lemma InboundExact(t: Terms, w: World, n: nat, a: Answers)
    requires 1 <= n <= |w.rows| && Exact(t, w.rows)
    ensures Exact(t, ExecAll(w, CheckInbound(t, w, n, a)).rows)
  {
    var row := RowOf(w, n);
    hide Exact, Unpropagate;
    if row.inSettled && row.inSeen && (!InSettled(t, w, n) || Shadowed(t, a)) {
      TakenBackExact(t, w, n, row.(inSettled := false));
    } else {
      KeptExact(t, w, CheckInbound(t, w, n, a));
    }
  }

  /** Every call, carried out to the end, leaves the deadlines exact. */
  lemma CallExact(t: Terms, w: World, call: Call, a: Answers)
    requires IsStep(t, call.n) && |w.rows| == |t.steps| && Exact(t, w.rows) && w.tip > 0 && SignedTerms(t)
    ensures Exact(t, ExecAll(w, CallPlan(t, w, call, a)).rows)
  {
    hide Exact, CheckOutbound, CheckInbound, UpdateTiming, FindPayment;
    match call
    case LookOut(n) => OutboundExact(t, w, n);
    case Send(n) => SendExact(t, w, n, a);
    case OwnLegOncePaid(n) =>
    case LookIn(n) => InboundExact(t, w, n, a);
    case LookInOnceSent(n) => InboundExact(t, w, n, a);
    case Clock(n) => ClockExact(t, w, n);
    case Recover(n) => KeptExact(t, w, CallPlan(t, w, Recover(n), a));
  }

  lemma SendExact(t: Terms, w: World, n: nat, a: Answers)
    requires IsStep(t, n) && |w.rows| == |t.steps| && Exact(t, w.rows)
    ensures Exact(t, ExecAll(w, EnsureSent(t, w, n, a)).rows)
  {
    hide Exact, FindPayment;
    KeptExact(t, w, EnsureSent(t, w, n, a));
  }

  // ----- Over whole runs --------------------------------------------------------------------------------------

  /** Whenever nothing is left to carry out, the deadlines are exact. */
  ghost predicate ExactThroughout(t: Terms, c: Config, events: seq<Event>)
    decreases events
  {
    (c.todo == [] ==> Exact(t, c.world.rows)) && (events == [] || ExactThroughout(t, After(t, c, events[0]), events[1..]))
  }

  /** No crash falls where they are not. */
  ghost predicate NoCrashInside(t: Terms, c: Config, events: seq<Event>)
    decreases events
  {
    events == [] || ((events[0].Crash? ==> Exact(t, c.world.rows)) && NoCrashInside(t, After(t, c, events[0]), events[1..]))
  }

  /** Every height is that of some block past genesis. */
  predicate PastGenesis(c: Config, events: seq<Event>) {
    c.world.tip > 0 && forall e :: e in events && e.Outside? ==> e.seen.tip > 0
  }

  ghost predicate WillBeExact(t: Terms, c: Config) { Exact(t, ExecAll(c.world, c.todo).rows) }

  lemma EventExact(t: Terms, c: Config, e: Event)
    requires WillBeExact(t, c) && Enabled(t, c, e) && c.world.tip > 0 && SignedTerms(t)
    requires e.Crash? ==> Exact(t, c.world.rows)
    ensures WillBeExact(t, After(t, c, e))
  {
    match e
    case Advance =>
    case Reconcile(_) =>
    case Next(a) => CallExact(t, c.world, c.script[0], a);
    case Carry =>
    case Crash =>
    case Outside(seen) => RowsAlone(c.world, Moved(c.world, seen), c.todo);
  }

  lemma {:induction false} ExactUnlessCut(t: Terms, c: Config, events: seq<Event>)
    requires WillBeExact(t, c) && Runs(t, c, events) && PastGenesis(c, events) && SignedTerms(t)
    ensures ExactThroughout(t, c, events) <==> NoCrashInside(t, c, events)
    decreases events
  {
    if events != [] {
      var e, next := events[0], After(t, c, events[0]);
      assert e in events && forall f :: f in events[1..] ==> f in events;
      assert next.world.tip > 0 by { TipAfter(t, c, e); }
      hide Exact, Enabled, WillBeExact;
      if e.Crash? && !Exact(t, c.world.rows) {
        assert next.todo == [] && !Exact(t, next.world.rows);
      } else {
        EventExact(t, c, e);
        ExactUnlessCut(t, next, events[1..]);
      }
    }
    assert c.todo == [] ==> Exact(t, c.world.rows);
  }

  /**
   Along any run from acceptance, whoever sends what and whatever the chains do: whenever nothing is left to
   carry out every deadline but the first is exactly one budget after the completion of the step before it,
   and there is none while that step is not complete, if and only if no crash falls where this is not so.
   */
  lemma DeadlinesExactIff(t: Terms, c: Config, events: seq<Event>)
    requires AcceptedFresh(t, c) && SignedTerms(t) && Runs(t, c, events) && PastGenesis(c, events)
    ensures ExactThroughout(t, c, events) <==> NoCrashInside(t, c, events)
  {
    forall n | 1 <= n < |c.world.rows|
      ensures ExactAt(t, c.world.rows, n)
    {
      assert FreshRow(t, c.world, n) && FreshRow(t, c.world, n + 1);
    }
    assert ExecAll(c.world, c.todo) == c.world;
    ExactUnlessCut(t, c, events);
  }

  // ----- A crash that leaves a stale one ------------------------------------------------------------------------

  const HIDDEN: Answers := Answers(false, true, true, true)

  /** Step 1 is taken back and its completion cleared, and step 2 still counts from it. */
  function Stale(t: Terms): World
    requires |t.steps| >= 2
  {
    var w := SecondOpen(t);
    w.(rows := w.rows[0 := w.rows[0].(inSettled := false, completed := 0)])
  }

  lemma TakenBackIs(t: Terms)
    requires |t.steps| >= 2 && !t.sendsLapse && SignedTerms(t)
    ensures var w := SecondOpen(t);
            var f, g, h := Save(1, w.rows[0].(inSettled := false)), Save(1, w.rows[0].(inSettled := false, completed := 0)),
                           Save(2, w.rows[1].(deadline := 0));
            && |w.rows| == |t.steps| && CallPlan(t, w, LookIn(1), HIDDEN) == [f, g, h]
            && Exec(Exec(w, f), g) == Stale(t)
            && CallPlan(t, w, LookOut(1), READY) == [Save(1, w.rows[0])] && CallPlan(t, w, Recover(1), READY) == []
            && Exec(w, Save(1, w.rows[0])) == w && w.final == |w.account|
  {
    var w := SecondOpen(t);
    assert AppliedOn(w, FirstEnvelope(t));
    assert w.rows[0 := w.rows[0]] == w.rows;
    assert w.rows[0].completed != 0 && w.rows[1].deadline == w.rows[0].completed + StepBudget(t);
  }

  lemma StaleIsReached(t: Terms, c: Config)
    requires TermsOk(t) && |t.steps| >= 2 && !t.sendsLapse && SignedTerms(t)
    requires Reaches(t, c, Config(SecondOpen(t), [], []))
    ensures Reaches(t, c, Config(Stale(t), [], []))
  {
    var w := SecondOpen(t);
    var rest := [Recover(1)] + [LookIn(1)];
    TakenBackIs(t);
    ExecOne(w, Save(1, w.rows[0]));
    assert RecoveryScript(1) == [LookOut(1)] + rest && [LookIn(1)][1..] == [];
    var f, g := Save(1, w.rows[0].(inSettled := false)), Save(1, w.rows[0].(inSettled := false, completed := 0));
    var plan := CallPlan(t, w, LookIn(1), HIDDEN);
    hide Reaches, CallPlan, SecondOpen, Stale, Forgets;
    ReachStep(t, c, Config(w, [], []), Reconcile(1));
    StillCallReaches(t, c, w, LookOut(1), rest, READY);
    StillCallReaches(t, c, w, Recover(1), [LookIn(1)], READY);
    NotASend(t, Config(w, [], [LookIn(1)]), HIDDEN);
    ReachStep(t, c, Config(w, [], [LookIn(1)]), Next(HIDDEN));
    ReachStep(t, c, Config(w, plan, []), Carry);
    ReachStep(t, c, Config(Exec(w, f), plan[1..], []), Carry);
    assert plan[1..][1..] == plan[2..] && plan[1..][0] == g;
    ReachStep(t, c, Config(Stale(t), plan[2..], []), Crash);
  }

  lemma NotASend(t: Terms, c: Config, a: Answers)
    requires c.script == [LookIn(1)]
    ensures !Forgets(t, c, Next(a))
  {
  }

  /**
   For every trade of two steps or more in which this node sends XLM, a run from acceptance: a mempool copy of the
   peer's payment takes step 1 back, and a crash between the two saves leaves step 2 the deadline step 1 had earned.
   */
  lemma SomeRunLeavesStale(t: Terms)
    requires TermsOk(t) && |t.steps| >= 2 && !t.sendsLapse && SignedTerms(t)
    ensures exists c, events ::
              && AcceptedFresh(t, c) && Runs(t, c, events) && Idle(EndOf(t, c, events))
              && var rows := EndOf(t, c, events).world.rows;
                 |rows| >= 2 && !StepDone(rows, 1) && rows[0].completed == 0 && rows[1].deadline != 0
  {
    var c := Accepted(t);
    AcceptedIsFresh(t);
    SecondOpenIsReached(t);
    StaleIsReached(t, c);
    var d := Config(Stale(t), [], []);
    assert !StepDone(d.world.rows, 1) && d.world.rows[0].completed == 0 && d.world.rows[1].deadline != 0;
    hide Accepted, Stale, AcceptedFresh;
    var events :| Runs(t, c, events) && Careful(t, c, events) && EndOf(t, c, events) == d;
  }
}
