/**
 Whole runs of the engine. A pass is a script of calls, each of which reads the chains afresh; between
 any two effects the outside world may do anything, and the process may be killed.
 */
module SwapRuns {
  import opened Collections
  import opened Planning
  import opened Schedule
  import opened SwapModel
  import opened SwapSafety
  import opened SwapPlans

  // ----- A pass, call by call ---------------------------------------------------------------------

  datatype Call =
    | LookOut(n: nat)
    | Send(n: nat)
    | OwnLegOncePaid(n: nat)
    | LookIn(n: nat)
    | LookInOnceSent(n: nat)
    | Clock(n: nat)
    | Recover(n: nat)

  /** What a call decides to do, on the chains as they stand when it is made. */
  function CallPlan(t: Terms, w: World, c: Call, a: Answers): seq<Effect>
    requires IsStep(t, c.n) && |w.rows| == |t.steps|
  {
    match c
    case LookOut(n) => CheckOutbound(t, w, n)
    case Send(n) => EnsureSent(t, w, n, a)
    case OwnLegOncePaid(n) => []
    case LookIn(n) => CheckInbound(t, w, n, a)
    case LookInOnceSent(n) => if RowOf(w, n).out == Settled then CheckInbound(t, w, n, a) else []
    case Clock(n) => UpdateTiming(t, w, n)
    case Recover(n) =>
      var found := FindPayment(t, w, n);
      if RowOf(w, n).txId.None? && found.Some? then RecordOutbound(t, w, n, found.value.env, found.value.depth) else []
  }

  /** The calls still to come once this one is done; a locked wallet ends the pass. */
  function ScriptAfter(t: Terms, w: World, c: Call, rest: seq<Call>, a: Answers): seq<Call>
    requires IsStep(t, c.n) && |w.rows| == |t.steps|
  {
    match c
    case Send(n) =>
      if RowOf(w, n).out == Settled then rest
      else if StopsLocked(t, w, n, a) then []
      else [LookOut(n)] + rest
    case OwnLegOncePaid(n) => if RowOf(w, n).inSettled then [LookOut(n), Send(n)] + rest else rest
    case _ => rest
  }

  /** One pass: the first mover sends then watches, the second watches then sends. */
  function PassScript(t: Terms, rows: seq<Row>): seq<Call> {
    var n := FirstOpen(rows, 1);
    if n == 0 then []
    else if MovesFirst(n, t.opens) then [LookOut(n), Send(n), LookInOnceSent(n), Clock(n)]
    else [LookIn(n), OwnLegOncePaid(n), Clock(n)]
  }

  function RecoveryScript(n: nat): seq<Call> { [LookOut(n), Recover(n), LookIn(n)] }

  // ----- Runs ---------------------------------------------------------------------------------------

  /** The world, the effects the current call has still to carry out, and the calls still to make. */
  datatype Config = Config(world: World, todo: seq<Effect>, script: seq<Call>)

  datatype Event =
    | Advance
    | Reconcile(n: nat)
    | Next(answers: Answers)
    | Carry
    | Crash
    | Outside(seen: World)

  predicate Idle(c: Config) { c.todo == [] && c.script == [] }

  /** The chains as they are in `seen`, with this node's own rows and releases. */
  function Moved(w: World, seen: World): World {
    w.(account := seen.account, final := seen.final, tip := seen.tip, pool := seen.pool, inbound := seen.inbound)
  }

  ghost predicate Enabled(t: Terms, c: Config, e: Event) {
    && |c.world.rows| == |t.steps|
    && match e
       case Advance => Idle(c)
       case Reconcile(n) => Idle(c) && IsStep(t, n)
       case Next(_) => c.todo == [] && c.script != [] && IsStep(t, c.script[0].n)
       case Carry => c.todo != []
       case Crash => true
       case Outside(seen) => Moves(t, c.world, Moved(c.world, seen))
  }

  function After(t: Terms, c: Config, e: Event): Config {
    match e
    case Advance => c.(script := PassScript(t, c.world.rows))
    case Reconcile(n) => c.(script := RecoveryScript(n))
    case Next(a) =>
      if c.script != [] && IsStep(t, c.script[0].n) && |c.world.rows| == |t.steps| then
        Config(c.world, CallPlan(t, c.world, c.script[0], a),
               ScriptAfter(t, c.world, c.script[0], c.script[1..], a))
      else c
    case Carry => if c.todo != [] then Config(Exec(c.world, c.todo[0]), c.todo[1..], c.script) else c
    case Crash => Config(c.world, [], [])
    case Outside(seen) => c.(world := Moved(c.world, seen))
  }

  ghost predicate Runs(t: Terms, c: Config, events: seq<Event>)
    decreases events
  {
    events == [] || (Enabled(t, c, events[0]) && Runs(t, After(t, c, events[0]), events[1..]))
  }

  function EndOf(t: Terms, c: Config, events: seq<Event>): Config
    decreases events
  {
    if events == [] then c else EndOf(t, After(t, c, events[0]), events[1..])
  }

  /** This event is a send that gives up a stored envelope which may still be applied. */
  ghost predicate Forgets(t: Terms, c: Config, e: Event) {
    && e.Next? && c.script != [] && c.script[0].Send? && IsStep(t, c.script[0].n) && |c.world.rows| == |t.steps|
    && ForgetsLive(t, c.world, c.script[0].n, e.answers)
  }

  /** No send of the run gives up a live envelope. */
  ghost predicate Careful(t: Terms, c: Config, events: seq<Event>)
    decreases events
  {
    events == [] || (!Forgets(t, c, events[0]) && Careful(t, After(t, c, events[0]), events[1..]))
  }

  lemma {:induction false} RunsAppend(t: Terms, c: Config, a: seq<Event>, b: seq<Event>)
    ensures EndOf(t, c, a + b) == EndOf(t, EndOf(t, c, a), b)
    ensures Runs(t, c, a + b) <==> Runs(t, c, a) && Runs(t, EndOf(t, c, a), b)
    ensures Careful(t, c, a + b) <==> Careful(t, c, a) && Careful(t, EndOf(t, c, a), b)
    decreases a
  {
    hide Enabled, After, Forgets;
    if a == [] {
      assert a + b == b;
    } else {
      assert (a + b)[1..] == a[1..] + b;
      RunsAppend(t, After(t, c, a[0]), a[1..], b);
    }
  }

  ghost predicate FreshRow(t: Terms, w: World, n: nat)
    requires 1 <= n <= |w.rows|
  {
    w.rows[n - 1] == Row(Pending, None, None, false, false, 0,
                         if n == 1 then t.acceptedHeight + StepBudget(t) else 0)
  }

  ghost predicate AcceptedFresh(t: Terms, c: Config) {
    && TermsOk(t) && Idle(c) && c.world.released == {} && |c.world.rows| == |t.steps|
    && AccountFits(t, c.world) && PoolFits(c.world) && InboundFits(c.world)
    && forall n :: 1 <= n <= |c.world.rows| ==> FreshRow(t, c.world, n)
  }

  // ----- What every run keeps --------------------------------------------------------------------------

  ghost predicate EarlierSettled(t: Terms, w: World, n: nat) { forall m :: 1 <= m < n ==> BothSettled(t, w, m) }

  /** A call to come may be made when its turn comes: a send only behind its step's gate. */
  ghost predicate CallFits(t: Terms, w: World, c: Call) {
    && IsStep(t, c.n) && (c.Send? ==> Gate(t, w, c.n))
    && (c.OwnLegOncePaid? ==> EarlierSettled(t, w, c.n))
  }

  ghost predicate ScriptFits(t: Terms, w: World, script: seq<Call>) {
    forall i :: 0 <= i < |script| ==> CallFits(t, w, script[i])
  }

  ghost predicate Good(t: Terms, c: Config) {
    Inv(t, c.world) && Safe(t, c.world, c.todo) && ScriptFits(t, c.world, c.script)
  }

  lemma FreshGood(t: Terms, c: Config)
    requires AcceptedFresh(t, c)
    ensures Good(t, c)
  {
    forall n | 1 <= n <= |c.world.rows|
      ensures StoredFits(t, c.world, n)
    {
      assert FreshRow(t, c.world, n);
    }
  }

  lemma ScriptStays(t: Terms, w: World, v: World, script: seq<Call>)
    requires ScriptFits(t, w, script)
    requires forall n: nat :: BothSettled(t, w, n) ==> BothSettled(t, v, n)
    requires forall n: nat :: InSettled(t, w, n) ==> InSettled(t, v, n)
    ensures ScriptFits(t, v, script)
  {
    hide BothSettled, InSettled;
    forall i | 0 <= i < |script|
      ensures CallFits(t, v, script[i])
    {
      assert CallFits(t, w, script[i]);
    }
  }

  lemma PassFits(t: Terms, w: World)
    requires Inv(t, w)
    ensures ScriptFits(t, w, PassScript(t, w.rows))
  {
    var n := FirstOpen(w.rows, 1);
    if n != 0 {
      forall m | 1 <= m < n
        ensures BothSettled(t, w, m)
      {
        assert StepDone(w.rows, m) && StoredFits(t, w, m);
      }
    }
  }

  /** Every call decides on effects that are safe to carry out, a send if it gives up no live envelope. */
  lemma CallSafe(t: Terms, w: World, c: Call, a: Answers)
    requires Inv(t, w) && CallFits(t, w, c) && (c.Send? ==> !ForgetsLive(t, w, c.n, a))
    ensures Safe(t, w, CallPlan(t, w, c, a))
  {
    match c
    case LookOut(n) => CheckOutboundSafe(t, w, n);
    case Send(n) => EnsureSentSafe(t, w, n, a);
    case OwnLegOncePaid(n) =>
    case LookIn(n) => CheckInboundSafe(t, w, n, a);
    case LookInOnceSent(n) => CheckInboundSafe(t, w, n, a);
    case Clock(n) => UpdateTimingSafe(t, w, n);
    case Recover(n) =>
      var found := FindPayment(t, w, n);
      if found.Some? {
        FoundMeansDepth(t, w, n);
        RecordOutboundSafe(t, w, n, found.value.env, found.value.depth);
      }
  }

  lemma CallThenFits(t: Terms, w: World, c: Call, rest: seq<Call>, a: Answers)
    requires Inv(t, w) && CallFits(t, w, c) && ScriptFits(t, w, rest)
    ensures ScriptFits(t, w, ScriptAfter(t, w, c, rest, a))
  {
    if c.OwnLegOncePaid? && w.rows[c.n - 1].inSettled {
      assert StoredFits(t, w, c.n);
      assert CallFits(t, w, Send(c.n));
    }
  }

  lemma StepKeeps(t: Terms, c: Config, e: Event)
    requires Good(t, c) && Enabled(t, c, e) && !Forgets(t, c, e)
    ensures Good(t, After(t, c, e))
  {
    match e
    case Advance => PassFits(t, c.world);
    case Reconcile(n) =>
    case Next(a) =>
      assert CallFits(t, c.world, c.script[0]);
      assert ScriptFits(t, c.world, c.script[1..]) by {
        forall i | 0 <= i < |c.script[1..]|
          ensures CallFits(t, c.world, c.script[1..][i])
        {
          assert CallFits(t, c.world, c.script[i + 1]);
        }
      }
      hide Inv, CallFits, ScriptFits;
      CallSafe(t, c.world, c.script[0], a);
      CallThenFits(t, c.world, c.script[0], c.script[1..], a);
    case Carry =>
      GuardedKeepsInv(t, c.world, c.todo[0]);
      SettledIgnoresEffects(t, c.world, c.todo[0]);
      ScriptStays(t, c.world, Exec(c.world, c.todo[0]), c.script);
    case Crash =>
    case Outside(seen) =>
      var v := Moved(c.world, seen);
      MovesKeepInv(t, c.world, v);
      SafeStays(t, c.world, v, c.todo);
      ScriptStays(t, c.world, v, c.script);
  }

  lemma {:induction false} RunKeeps(t: Terms, c: Config, events: seq<Event>)
    requires Good(t, c) && Runs(t, c, events) && Careful(t, c, events)
    ensures Good(t, EndOf(t, c, events))
    decreases events
  {
    hide Good, Enabled, After, Forgets;
    if events != [] {
      StepKeeps(t, c, events[0]);
      RunKeeps(t, After(t, c, events[0]), events[1..]);
    }
  }

  /** What this node has to be spared: of an XLM sender nothing, for a Stellar payment is never rolled back. */
  ghost predicate Spared(t: Terms, c: Config, events: seq<Event>) { t.sendsLapse ==> Careful(t, c, events) }

  lemma XlmForgetsNothing(t: Terms, c: Config, e: Event)
    requires !t.sendsLapse && Good(t, c)
    ensures !Forgets(t, c, e)
  {
  }

  /** Every run of an XLM sender is careful. */
  lemma {:induction false} XlmIsCareful(t: Terms, c: Config, events: seq<Event>)
    requires !t.sendsLapse && Good(t, c) && Runs(t, c, events)
    ensures Careful(t, c, events)
    decreases events
  {
    hide Good, Enabled, After, Forgets;
    if events != [] {
      XlmForgetsNothing(t, c, events[0]);
      StepKeeps(t, c, events[0]);
      XlmIsCareful(t, After(t, c, events[0]), events[1..]);
    }
  }

  lemma RunInv(t: Terms, c: Config, events: seq<Event>)
    requires AcceptedFresh(t, c) && Runs(t, c, events) && Spared(t, c, events)
    ensures Inv(t, EndOf(t, c, events).world) && Careful(t, c, events)
  {
    FreshGood(t, c);
    hide AcceptedFresh, Runs, Careful, EndOf, Inv, Safe, ScriptFits;
    if !t.sendsLapse {
      XlmIsCareful(t, c, events);
    }
    RunKeeps(t, c, events);
  }

  // ----- Exactly once -----------------------------------------------------------------------------

  ghost predicate PaysTwice(w: World) { exists n: nat, i: nat, j: nat :: PaidAt(w, n, i) && PaidAt(w, n, j) && i != j }

  /**
   After every run of an XLM sender, and of a LAPSE sender every run in which no send gives up a live
   envelope: no step is paid twice on the ledger, every payment has the agreed amount, at most one envelope
   per step can still be applied, and once a step is finally paid none can.
   */
  lemma ExactlyOncePayment(t: Terms, c: Config, events: seq<Event>)
    requires AcceptedFresh(t, c) && Runs(t, c, events) && Spared(t, c, events)
    ensures var w := EndOf(t, c, events).world;
            && !PaysTwice(w)
            && (forall a, b :: a in w.released && b in w.released && a.step == b.step && Live(w, a) && Live(w, b) ==> a == b)
            && (forall e :: e in w.released && FinallyPaid(w, e.step) ==> !Live(w, e))
            && (forall n: nat, i: nat :: PaidAt(w, n, i) ==> IsStep(t, n) && w.account[i].tx.env.amount == Amount(t, n))
  {
    RunInv(t, c, events);
    var w := EndOf(t, c, events).world;
    forall e | e in w.released
      ensures EnvelopeFits(t, w, e) && (Live(w, e) ==> w.rows[e.step - 1].envelope == Some(e))
    {
    }
  }

  // ----- Bounded loss ------------------------------------------------------------------------------

  /**
   Whatever has been released for a step went out only after every earlier step settled both ways
   and, where the peer opens the step, after the peer's leg settled.
   */
  lemma ReleasedOnlyBehindGate(t: Terms, c: Config, events: seq<Event>, e: Envelope)
    requires AcceptedFresh(t, c) && Runs(t, c, events) && Spared(t, c, events)
    requires e in EndOf(t, c, events).world.released
    ensures IsStep(t, e.step) && EarlierSettled(t, EndOf(t, c, events).world, e.step)
    ensures !MovesFirst(e.step, t.opens) ==> InSettled(t, EndOf(t, c, events).world, e.step)
  {
    RunInv(t, c, events);
    assert EnvelopeFits(t, EndOf(t, c, events).world, e);
  }

  /** This entry of the ledger is a payment the peer has not reciprocated. */
  predicate Unreciprocated(t: Terms, w: World, i: nat)
    requires i < |w.account|
  {
    w.account[i].tx.Pay? && IsStep(t, w.account[i].tx.env.step) && !InSettled(t, w, w.account[i].tx.env.step)
  }

  /** What this node would be out, in stroops, were the peer never to pay again. */
  function Loss(t: Terms, w: World, upTo: nat): int
    requires upTo <= |w.account|
  {
    if upTo == 0 then 0
    else Loss(t, w, upTo - 1)
         + if Unreciprocated(t, w, upTo - 1) then t.steps[w.account[upTo - 1].tx.env.step - 1].xlm else 0
  }

  lemma OneUnreciprocated(t: Terms, w: World, i: nat, j: nat)
    requires Inv(t, w) && i < |w.account| && j < |w.account| && Unreciprocated(t, w, i) && Unreciprocated(t, w, j)
    ensures i == j
  {
    var a, b := w.account[i].tx.env, w.account[j].tx.env;
    assert EnvelopeFits(t, w, a) && EnvelopeFits(t, w, b);
    forall m | 1 <= m < a.step || 1 <= m < b.step
      ensures InSettled(t, w, m)
    {
      assert BothSettled(t, w, m);
    }
    assert PaidAt(w, a.step, i) && PaidAt(w, b.step, j);
  }

  lemma {:induction false} LossIsOneStep(t: Terms, w: World, upTo: nat, cap: int)
    requires Inv(t, w) && upTo <= |w.account| && cap >= 0
    requires forall n :: 0 <= n < |t.steps| ==> t.steps[n].xlm <= cap
    ensures Loss(t, w, upTo) <= cap
    ensures (forall i: nat :: i < upTo ==> !Unreciprocated(t, w, i)) ==> Loss(t, w, upTo) == 0
  {
    if upTo > 0 {
      LossIsOneStep(t, w, upTo - 1, cap);
      if Unreciprocated(t, w, upTo - 1) {
        forall i: nat | i < upTo - 1
          ensures !Unreciprocated(t, w, i)
        {
          if Unreciprocated(t, w, i) {
            OneUnreciprocated(t, w, i, upTo - 1);
          }
        }
      }
    }
  }

  /**
   Against any counterparty and any crashes, and where LAPSE goes out with no live envelope given up, a
   planned trade never has more than the cap outstanding.
   */
  lemma LossNeverExceedsCap(t: Terms, c: Config, events: seq<Event>, lapseTotal: int, xlmTotal: int, cap: int)
    requires cap >= MIN_STEP_STROOPS && AcceptedFresh(t, c) && Runs(t, c, events) && Spared(t, c, events)
    ensures Planned(t.steps, lapseTotal, xlmTotal, cap) ==>
              var w := EndOf(t, c, events).world;
              Loss(t, w, |w.account|) <= cap
  {
    hide Planned, Inv, Loss, AcceptedFresh, Runs, Careful, EndOf;
    if Planned(t.steps, lapseTotal, xlmTotal, cap) {
      PlannedIs(t.steps, lapseTotal, xlmTotal, cap);
      RunInv(t, c, events);
      var w := EndOf(t, c, events).world;
      LossIsOneStep(t, w, |w.account|, cap);
    }
  }
}
