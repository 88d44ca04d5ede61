/**
 When every step settled both ways gives the next one its deadline: always, unless a crash or a startup
 pass leaves such a step behind untimed, for only a pass over it would time it and none is. And how late a
 deadline can be.
 */
module SwapTiming {
  import opened Collections
  import opened Schedule
  import opened SwapModel
  import opened SwapSafety
  import opened SwapPlans
  import opened SwapRuns
  import opened SwapHonest
  import opened SwapRebuild
  import opened HonestRuns
  import opened Blame
  import opened SwapDeadlines

  /** The step is settled both ways, or has been marked complete. */
  predicate Through(rows: seq<Row>, n: nat)
    requires 1 <= n <= |rows|
  {
    StepDone(rows, n) || rows[n - 1].completed != 0
  }

  predicate TimedPair(rows: seq<Row>, n: nat)
    requires 1 <= n < |rows|
  {
    Through(rows, n) ==> rows[n].deadline != 0
  }

  /** Every such step has a successor with a deadline, or none. */
  predicate AllTimed(rows: seq<Row>) { forall n :: 1 <= n < |rows| ==> TimedPair(rows, n) }

  predicate TimedBut(rows: seq<Row>, n: nat) { forall m :: 1 <= m < |rows| && m != n ==> TimedPair(rows, m) }

  // ----- A pass touches one step -------------------------------------------------------------------------------

  /** A save of step n that keeps its deadline, or of step n + 1 that keeps everything but its deadline. */
  predicate Local(rows: seq<Row>, f: Effect, n: nat)
    requires 1 <= n <= |rows|
  {
    f.Save? ==>
      && (f.n == n ==> f.row.deadline == rows[n - 1].deadline)
      && (f.n != n ==> f.n == n + 1 <= |rows| && f.row.out == rows[n].out && f.row.inSettled == rows[n].inSettled
                       && f.row.completed == rows[n].completed)
  }

  predicate AllLocal(rows: seq<Row>, fs: seq<Effect>, n: nat)
    requires 1 <= n <= |rows|
  {
    forall f :: f in fs ==> Local(rows, f, n)
  }

  lemma LocalStays(w: World, fs: seq<Effect>, n: nat)
    requires fs != [] && 1 <= n <= |w.rows| && AllLocal(w.rows, fs, n) && TimedBut(w.rows, n)
    ensures var v := Exec(w, fs[0]); |v.rows| == |w.rows| && AllLocal(v.rows, fs[1..], n) && TimedBut(v.rows, n)
  {
    var v := Exec(w, fs[0]);
    assert fs[0] in fs && Local(w.rows, fs[0], n);
    forall f | f in fs[1..]
      ensures Local(v.rows, f, n)
    {
      assert f in fs && Local(w.rows, f, n);
    }
    forall m | 1 <= m < |v.rows| && m != n
      ensures TimedPair(v.rows, m)
    {
      assert TimedPair(w.rows, m);
    }
  }

  lemma {:induction false} LocalToTheEnd(w: World, fs: seq<Effect>, n: nat)
    requires 1 <= n <= |w.rows| && AllLocal(w.rows, fs, n) && TimedBut(w.rows, n)
    ensures |ExecAll(w, fs).rows| == |w.rows| && TimedBut(ExecAll(w, fs).rows, n)
    decreases fs
  {
    if fs != [] {
      LocalStays(w, fs, n);
      hide TimedBut, AllLocal;
      LocalToTheEnd(Exec(w, fs[0]), fs[1..], n);
    }
  }

  lemma CallIsLocal(t: Terms, w: World, call: Call, a: Answers)
    requires IsStep(t, call.n) && |w.rows| == |t.steps|
    ensures AllLocal(w.rows, CallPlan(t, w, call, a), call.n)
  {
    hide FindPayment, Confirmations, InSettled, NextSeq;
  }

  // ----- A pass ends with its clock -----------------------------------------------------------------------------

  predicate PairOk(rows: seq<Row>, n: nat) { 1 <= n < |rows| ==> TimedPair(rows, n) }

  lemma ClockTimesPair(t: Terms, w: World, n: nat)
    requires IsStep(t, n) && |w.rows| == |t.steps| && Timed(w.rows) && w.tip >= 0 && SignedTerms(t)
    ensures PairOk(ExecAll(w, UpdateTiming(t, w, n)).rows, n)
  {
    var row, fs := RowOf(w, n), UpdateTiming(t, w, n);
    assert n < |w.rows| ==> TimedAt(w.rows, n);
    if |fs| == 2 {
      assert fs == [fs[0]] + [fs[1]];
      ExecTwo(w, fs[0], fs[1]);
    } else if |fs| == 1 {
      assert fs == [fs[0]];
      ExecOne(w, fs[0]);
    }
  }

  /** A pass that ends on a locked wallet leaves its own leg unsettled. */
  lemma LockedLeavesOpen(t: Terms, w: World, n: nat, a: Answers)
    requires IsStep(t, n) && |w.rows| == |t.steps| && StopsLocked(t, w, n, a) && Timed(w.rows)
    ensures PairOk(ExecAll(w, EnsureSent(t, w, n, a)).rows, n)
  {
    var row, fs := RowOf(w, n), EnsureSent(t, w, n, a);
    assert n < |w.rows| ==> TimedAt(w.rows, n);
    if HasLiveClaim(row) {
      assert BuildAndSend(t, w, n, AfterResend(w, row, a), a) == [];
      assert fs == [fs[0]] + [fs[1]];
      hide EnsureSent, FindPayment, StopsLocked;
      ExecTwo(w, fs[0], fs[1]);
    } else {
      assert fs == [];
    }
  }

  /** Every call to come is on step n, and the last of them is its clock. */
  predicate EndsWithClock(script: seq<Call>, n: nat) {
    && (forall i :: 0 <= i < |script| ==> script[i].n == n)
    && (script != [] ==> script[|script| - 1] == Clock(n))
  }

  /** A pass over step n under way. */
  ghost predicate OnPass(t: Terms, c: Config, n: nat) {
    && IsStep(t, n) && |c.world.rows| == |t.steps| && WillBeTimed(c)
    && TimedBut(c.world.rows, n) && AllLocal(c.world.rows, c.todo, n) && EndsWithClock(c.script, n)
    && (c.script == [] ==> PairOk(ExecAll(c.world, c.todo).rows, n))
  }

  lemma PassStarts(t: Terms, c: Config)
    requires Idle(c) && AllTimed(c.world.rows) && |c.world.rows| == |t.steps|
    ensures var d := After(t, c, Advance); Idle(d) || OnPass(t, d, FirstOpen(c.world.rows, 1))
  {
    var n := FirstOpen(c.world.rows, 1);
    if n != 0 {
      AllTimedIsTimed(c.world.rows);
      hide Timed, TimedPair;
      assert ExecAll(c.world, []) == c.world;
    }
  }

  lemma AllTimedIsTimed(rows: seq<Row>)
    requires AllTimed(rows)
    ensures Timed(rows)
  {
    forall n | 1 <= n < |rows|
      ensures TimedAt(rows, n)
    {
      assert TimedPair(rows, n);
    }
  }

  lemma ScriptKeepsClock(t: Terms, w: World, script: seq<Call>, n: nat, a: Answers)
    requires EndsWithClock(script, n) && script != [] && IsStep(t, n) && |w.rows| == |t.steps|
    ensures EndsWithClock(ScriptAfter(t, w, script[0], script[1..], a), n)
  {
    hide StopsLocked;
    assert script[0].n == n;
    assert |script| > 1 ==> script[1..][|script[1..]| - 1] == script[|script| - 1];
  }

  lemma CallOnPass(t: Terms, c: Config, n: nat, a: Answers)
    requires OnPass(t, c, n) && c.todo == [] && c.script != [] && c.world.tip >= 0 && SignedTerms(t)
    ensures OnPass(t, After(t, c, Next(a)), n)
  {
    var w, call, rest := c.world, c.script[0], c.script[1..];
    assert call.n == n && ExecAll(w, c.todo) == w;
    assert Timed(w.rows);
    CallIsLocal(t, w, call, a);
    CallTimed(t, w, call, a);
    ScriptKeepsClock(t, w, c.script, n, a);
    if ScriptAfter(t, w, call, rest, a) == [] {
      LastCallTimes(t, w, c.script, n, a);
    }
    hide CallPlan, ScriptAfter, Timed, TimedBut, AllLocal, EndsWithClock, PairOk;
  }

  /** The call after which none is left is the clock, or a send that a locked wallet stops. */
  lemma LastCallTimes(t: Terms, w: World, script: seq<Call>, n: nat, a: Answers)
    requires EndsWithClock(script, n) && script != [] && IsStep(t, n) && |w.rows| == |t.steps|
    requires Timed(w.rows) && w.tip >= 0 && SignedTerms(t) && ScriptAfter(t, w, script[0], script[1..], a) == []
    ensures PairOk(ExecAll(w, CallPlan(t, w, script[0], a)).rows, n)
  {
    assert script[0].n == n;
    if script[0].Clock? {
      ClockTimesPair(t, w, n);
    } else {
      assert |script| > 1 && script[1..] != [];
      assert script[0].Send? && StopsLocked(t, w, n, a);
      LockedLeavesOpen(t, w, n, a);
    }
  }

  lemma CarryOnPass(t: Terms, c: Config, n: nat)
    requires OnPass(t, c, n) && c.todo != []
    ensures OnPass(t, After(t, c, Carry), n)
  {
    LocalStays(c.world, c.todo, n);
    hide Timed, TimedBut, AllLocal, EndsWithClock, PairOk;
  }

  lemma MoveOnPass(t: Terms, c: Config, n: nat, seen: World)
    requires OnPass(t, c, n)
    ensures OnPass(t, After(t, c, Outside(seen)), n)
  {
    RowsAlone(c.world, Moved(c.world, seen), c.todo);
    hide Timed, TimedBut, AllLocal, EndsWithClock, PairOk;
  }

  lemma PassEnds(t: Terms, c: Config, n: nat)
    requires OnPass(t, c, n) && Idle(c)
    ensures AllTimed(c.world.rows)
  {
    assert ExecAll(c.world, c.todo) == c.world;
    forall m | 1 <= m < |c.world.rows|
      ensures TimedPair(c.world.rows, m)
    {
      assert m != n ==> TimedPair(c.world.rows, m);
    }
  }

  // ----- Over whole runs ----------------------------------------------------------------------------------------

  /** Whenever the engine is idle, every step settled both ways has a successor with a deadline. */
  ghost predicate TimedWhenIdle(t: Terms, c: Config, events: seq<Event>)
    decreases events
  {
    (Idle(c) ==> AllTimed(c.world.rows)) && (events == [] || TimedWhenIdle(t, After(t, c, events[0]), events[1..]))
  }

  /** Whether a startup pass is under way after this event. */
  predicate Recovering(t: Terms, c: Config, e: Event, recovering: bool) {
    !Idle(After(t, c, e)) && (e.Reconcile? || recovering)
  }

  /** No crash falls, and no startup pass ends, where a step settled both ways has an untimed successor. */
  ghost predicate NoneLeftBehind(t: Terms, c: Config, events: seq<Event>, recovering: bool)
    decreases events
  {
    events == []
    || var e, next := events[0], After(t, c, events[0]);
       && (e.Crash? || (recovering && Idle(next)) ==> AllTimed(next.world.rows))
       && NoneLeftBehind(t, next, events[1..], Recovering(t, c, e, recovering))
  }

  /** Idle with everything timed, in a startup pass, or in a pass that will time what it settles. */
  ghost predicate Stands(t: Terms, c: Config, recovering: bool) {
    && |c.world.rows| == |t.steps|
    && (Idle(c) ==> AllTimed(c.world.rows))
    && (!Idle(c) && !recovering ==> exists n :: OnPass(t, c, n))
  }

  lemma PassGoesOn(t: Terms, c: Config, e: Event, n: nat)
    requires OnPass(t, c, n) && !Idle(c) && Enabled(t, c, e) && !e.Crash? && c.world.tip >= 0 && SignedTerms(t)
    ensures Stands(t, After(t, c, e), false)
  {
    hide WillBeTimed, TimedBut, AllTimed, EndsWithClock;
    match e {
      case Advance =>
      case Reconcile(_) =>
      case Next(a) => CallOnPass(t, c, n, a);
      case Carry => CarryOnPass(t, c, n);
      case Crash =>
      case Outside(seen) => MoveOnPass(t, c, n, seen);
    }
    var d := After(t, c, e);
    assert OnPass(t, d, n);
    if Idle(d) {
      PassEnds(t, d, n);
    }
  }

  lemma EventStands(t: Terms, c: Config, e: Event, recovering: bool)
    requires Stands(t, c, recovering) && (recovering ==> !Idle(c))
    requires Enabled(t, c, e) && c.world.tip >= 0 && SignedTerms(t)
    requires e.Crash? || (recovering && Idle(After(t, c, e))) ==> AllTimed(After(t, c, e).world.rows)
    ensures Stands(t, After(t, c, e), Recovering(t, c, e, recovering))
  {
    RowsStayMany(t, c, e);
    if e.Crash? {
    } else if Idle(c) {
      hide AllTimed, OnPass, Enabled;
      IdleStands(t, c, e);
    } else if !recovering {
      var n :| OnPass(t, c, n);
      hide OnPass, AllTimed;
      PassGoesOn(t, c, e, n);
    } else {
      hide OnPass, AllTimed;
    }
  }

  lemma RowsStayMany(t: Terms, c: Config, e: Event)
    ensures |After(t, c, e).world.rows| == |c.world.rows|
  {
    hide CallPlan, ScriptAfter;
  }

  lemma IdleStands(t: Terms, c: Config, e: Event)
    requires Idle(c) && AllTimed(c.world.rows) && |c.world.rows| == |t.steps| && Enabled(t, c, e) && !e.Crash?
    ensures Stands(t, After(t, c, e), Recovering(t, c, e, false))
  {
    match e
    case Advance =>
      PassStarts(t, c);
      hide AllTimed, OnPass, PassScript;
    case Reconcile(_) => hide AllTimed, OnPass;
    case Next(_) =>
    case Carry =>
    case Outside(_) => hide AllTimed, OnPass;
  }

  lemma {:induction false} TimedUnlessLeft(t: Terms, c: Config, events: seq<Event>, recovering: bool)
    requires Stands(t, c, recovering) && (recovering ==> !Idle(c))
    requires Runs(t, c, events) && Heights(c, events) && SignedTerms(t)
    ensures TimedWhenIdle(t, c, events) <==> NoneLeftBehind(t, c, events, recovering)
    decreases events
  {
    if events != [] {
      var e, next := events[0], After(t, c, events[0]);
      assert e in events && forall f :: f in events[1..] ==> f in events;
      TipAfter(t, c, e);
      hide AllTimed, Enabled, OnPass, After, Stands;
      if (e.Crash? || (recovering && Idle(next))) && !AllTimed(next.world.rows) {
        CrashIsIdle(t, c, e);
        assert !TimedWhenIdle(t, next, events[1..]);
      } else {
        EventStands(t, c, e, recovering);
        TimedUnlessLeft(t, next, events[1..], Recovering(t, c, e, recovering));
      }
    }
    StandsIdle(t, c, recovering);
  }

  lemma StandsIdle(t: Terms, c: Config, recovering: bool)
    requires Stands(t, c, recovering)
    ensures Idle(c) ==> AllTimed(c.world.rows)
  {
    hide AllTimed, OnPass;
  }

  lemma CrashIsIdle(t: Terms, c: Config, e: Event)
    ensures e.Crash? ==> Idle(After(t, c, e))
  {
  }

  /**
   Exactly when every step settled both ways starts the next one's clock. Along any run from acceptance,
   whoever sends what and whatever the chains do: whenever the engine is idle such a step's successor has a
   deadline, if and only if no crash falls and no startup pass ends where it has not.
   */
  lemma ClocksStartIff(t: Terms, c: Config, events: seq<Event>)
    requires AcceptedFresh(t, c) && SignedTerms(t) && Runs(t, c, events) && Heights(c, events)
    ensures TimedWhenIdle(t, c, events) <==> NoneLeftBehind(t, c, events, false)
  {
    forall n | 1 <= n < |c.world.rows|
      ensures TimedPair(c.world.rows, n)
    {
      assert FreshRow(t, c.world, n);
    }
    hide TimedPair, OnPass;
    TimedUnlessLeft(t, c, events, false);
  }

  // ----- A startup pass that leaves one behind ------------------------------------------------------------------

  /** What a startup pass makes of step 1 when both its payments are in and deep. */
  function Recovered(t: Terms): World
    requires |t.steps| >= 1
  {
    BothPaid(t).(rows := FirstRow(t, DoneRow(t)))
  }

  lemma RecoveryFindsBoth(t: Terms, c: Config)
    requires TermsOk(t) && |t.steps| >= 1 && Reaches(t, c, Config(BothPaid(t), [], []))
    ensures Reaches(t, c, Config(Recovered(t), [], []))
  {
    var w := BothPaid(t);
    var x := w.(rows := w.rows[0 := w.rows[0].(out := Settled)]);
    BothCanBePaid(t);
    LookOutSettles(t, w);
    LookInSettles(t, x);
    assert x.rows[0 := DoneRow(t)] == FirstRow(t, DoneRow(t));
    assert RecoveryScript(1) == [LookOut(1)] + ([Recover(1)] + [LookIn(1)]) && [LookIn(1)] + [] == [LookIn(1)];
    assert CallPlan(t, x, Recover(1), READY) == [];
    assert |w.rows| == |t.steps| && w.final == |w.account|;
    hide Reaches, CheckOutbound, CheckInbound, BothPaid, Recovered, DoneRow;
    ReachStep(t, c, Config(w, [], []), Reconcile(1));
    StillCallReaches(t, c, w, LookOut(1), [Recover(1)] + [LookIn(1)], READY);
    StillCallReaches(t, c, x, Recover(1), [LookIn(1)], READY);
    StillCallReaches(t, c, x, LookIn(1), [], READY);
  }

  /**
   For every trade of two steps or more there is a run from acceptance in which the startup pass finds step 1
   settled both ways, and step 2 has no deadline; the next pass is over step 2, and step 1 is not looked at.
   */
  lemma SomeStartupLeavesOneBehind(t: Terms)
    requires TermsOk(t) && |t.steps| >= 2
    ensures exists c, events ::
              && AcceptedFresh(t, c) && Runs(t, c, events) && Careful(t, c, events) && Idle(EndOf(t, c, events))
              && var rows := EndOf(t, c, events).world.rows;
                 |rows| >= 2 && StepDone(rows, 1) && rows[1].deadline == 0 && FirstOpen(rows, 1) == 2
  {
    var c := Accepted(t);
    AcceptedIsFresh(t);
    FirstSendGoesOut(t);
    BothCanBePaid(t);
    ReachStep(t, c, Config(FirstSent(t), [], []), Outside(BothPaid(t)));
    RecoveryFindsBoth(t, c);
    var d := Config(Recovered(t), [], []);
    assert StepDone(d.world.rows, 1) && !StepDone(d.world.rows, 2) && d.world.rows[1].deadline == 0;
    assert FirstOpen(d.world.rows, 1) == 2;
    hide Accepted, Recovered, AcceptedFresh;
    var events :| Runs(t, c, events) && Careful(t, c, events) && EndOf(t, c, events) == d;
  }

  // ----- How late a deadline can be -----------------------------------------------------------------------------

  /** Neither the row's completion nor its deadline looks further than these blocks. */
  predicate NoLaterThan(t: Terms, row: Row, top: int) {
    row.completed <= top && row.deadline <= Max(t.acceptedHeight, top) + StepBudget(t)
  }

  predicate AllNoLater(t: Terms, rows: seq<Row>, top: int) { forall i :: 0 <= i < |rows| ==> NoLaterThan(t, rows[i], top) }

  predicate SavesNoLater(t: Terms, fs: seq<Effect>, top: int) {
    forall f :: f in fs && f.Save? ==> NoLaterThan(t, f.row, top)
  }

  /** A save leaves a row's times, clears them, or sets them from the tip. */
  predicate TimesFrom(t: Terms, w: World, f: Effect) {
    f.Save? ==>
      && 1 <= f.n <= |w.rows|
      && (f.row.completed == w.rows[f.n - 1].completed || f.row.completed == 0 || f.row.completed == w.tip)
      && (f.row.deadline == w.rows[f.n - 1].deadline || f.row.deadline == 0 || f.row.deadline == w.tip + StepBudget(t))
  }

  lemma SendTimesFrom(t: Terms, w: World, n: nat, a: Answers)
    requires IsStep(t, n) && |w.rows| == |t.steps|
    ensures forall f :: f in EnsureSent(t, w, n, a) ==> TimesFrom(t, w, f)
  {
    hide FindPayment, NextSeq, StepBudget, SequenceConsumed;
  }

  lemma LookTimesFrom(t: Terms, w: World, n: nat, a: Answers)
    requires IsStep(t, n) && |w.rows| == |t.steps|
    ensures forall f :: f in CheckOutbound(t, w, n) ==> TimesFrom(t, w, f)
    ensures forall f :: f in CheckInbound(t, w, n, a) ==> TimesFrom(t, w, f)
  {
    hide Confirmations, InSettled, StepBudget;
  }

  lemma CallTimesFrom(t: Terms, w: World, call: Call, a: Answers)
    requires IsStep(t, call.n) && |w.rows| == |t.steps|
    ensures forall f :: f in CallPlan(t, w, call, a) ==> TimesFrom(t, w, f)
  {
    LookTimesFrom(t, w, call.n, a);
    SendTimesFrom(t, w, call.n, a);
    hide FindPayment, CheckOutbound, CheckInbound, EnsureSent, StepBudget;
  }

  lemma TimeNoLater(t: Terms, w: World, f: Effect, top: int)
    requires AllNoLater(t, w.rows, top) && 0 <= w.tip <= top && SignedTerms(t) && TimesFrom(t, w, f) && f.Save?
    ensures NoLaterThan(t, f.row, top)
  {
    assert NoLaterThan(t, w.rows[f.n - 1], top);
    assert StepBudget(t) >= 0;
    hide AllNoLater, StepBudget;
  }

  lemma CallNoLater(t: Terms, w: World, call: Call, a: Answers, top: int)
    requires IsStep(t, call.n) && |w.rows| == |t.steps| && AllNoLater(t, w.rows, top) && 0 <= w.tip <= top && SignedTerms(t)
    ensures SavesNoLater(t, CallPlan(t, w, call, a), top)
  {
    CallTimesFrom(t, w, call, a);
    hide AllNoLater, NoLaterThan, TimesFrom, CallPlan, SignedTerms;
    forall f | f in CallPlan(t, w, call, a) && f.Save?
      ensures NoLaterThan(t, f.row, top)
    {
      TimeNoLater(t, w, f, top);
    }
  }

  /** No height in the run is negative or above the top. */
  predicate HeightsTo(c: Config, events: seq<Event>, top: int) {
    0 <= c.world.tip <= top && forall e :: e in events && e.Outside? ==> 0 <= e.seen.tip <= top
  }

  lemma EventNoLater(t: Terms, c: Config, e: Event, top: int)
    requires AllNoLater(t, c.world.rows, top) && SavesNoLater(t, c.todo, top) && SignedTerms(t)
    requires Enabled(t, c, e) && 0 <= c.world.tip <= top
    ensures AllNoLater(t, After(t, c, e).world.rows, top) && SavesNoLater(t, After(t, c, e).todo, top)
  {
    match e
    case Advance =>
    case Reconcile(_) =>
    case Next(a) =>
      CallNoLater(t, c.world, c.script[0], a, top);
      hide CallPlan, ScriptAfter;
    case Carry =>
      assert c.todo[0] in c.todo;
    case Crash =>
    case Outside(_) =>
  }

  lemma {:induction false} RunNoLater(t: Terms, c: Config, events: seq<Event>, top: int)
    requires AllNoLater(t, c.world.rows, top) && SavesNoLater(t, c.todo, top) && SignedTerms(t)
    requires Runs(t, c, events) && HeightsTo(c, events, top)
    ensures AllNoLater(t, EndOf(t, c, events).world.rows, top)
    decreases events
  {
    if events != [] {
      var e := events[0];
      assert e in events && forall f :: f in events[1..] ==> f in events;
      TipAfter(t, c, e);
      hide AllNoLater, SavesNoLater, Enabled, After;
      EventNoLater(t, c, e, top);
      RunNoLater(t, After(t, c, e), events[1..], top);
    }
  }

  /**
   No deadline is later than one budget after the highest block ever seen: along any run from acceptance,
   where a step this node has paid has a deadline and the peer's leg stays out, the peer is held delinquent
   from one budget and the grace past that block on.
   */
  lemma DelinquencyComes(t: Terms, c: Config, events: seq<Event>, n: nat, top: int, height: int)
    requires AcceptedFresh(t, c) && SignedTerms(t) && Runs(t, c, events) && HeightsTo(c, events, top)
    requires var rows := EndOf(t, c, events).world.rows;
             && 1 <= n <= |rows| && (forall m :: 1 <= m < n ==> StepDone(rows, m))
             && rows[n - 1].out == Settled && !rows[n - 1].inSettled && rows[n - 1].deadline != 0
    requires height >= Max(t.acceptedHeight, top) + StepBudget(t) + ABANDON_AFTER_BLOCKS
    ensures Delinquent(true, EndOf(t, c, events).world.rows, height)
  {
    forall i | 0 <= i < |c.world.rows|
      ensures NoLaterThan(t, c.world.rows[i], top)
    {
      assert FreshRow(t, c.world, i + 1);
    }
    RunNoLater(t, c, events, top);
    var rows := EndOf(t, c, events).world.rows;
    assert NoLaterThan(t, rows[n - 1], top);
    hide Runs, EndOf, AcceptedFresh, AllNoLater, HeightsTo, Delinquent;
    assert Overdue(rows, n, height);
    DelinquentIff(true, rows, height);
  }
}
