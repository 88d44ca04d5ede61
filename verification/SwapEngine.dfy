/**
 The engine itself: methods that read the chains, update rows and submit envelopes in place, and
 may be killed at any save or submission. Each call is proved to carry out exactly its planned effects,
 up to the point where it was killed; a pass is proved to be a run, with the chains moving between calls.
 */
module SwapEngine {
  import opened Collections
  import opened Schedule
  import opened SwapModel
  import opened SwapSafety
  import opened SwapPlans
  import opened SwapRuns
  import opened SwapRebuild
  import opened SwapHonest
  import opened SwapNonces

  /** `plan` was carried out from `w` with strength for `fuel` effects, leaving `v` and `left`. */
  ghost predicate Carried(w: World, fuel: nat, plan: seq<Effect>, v: World, left: nat, alive: bool) {
    var k := if |plan| <= fuel then |plan| else fuel;
    v == ExecAll(w, plan[..k]) && left == fuel - k && alive == (|plan| <= fuel)
  }

  lemma CarriedNothing(w: World, fuel: nat)
    ensures Carried(w, fuel, [], w, fuel, true)
  {
  }

  lemma CarriedAppend(w: World, fuel: nat, a: seq<Effect>, v: World, left: nat, b: seq<Effect>, x: World, rest: nat, alive: bool)
    requires Carried(w, fuel, a, v, left, true) && Carried(v, left, b, x, rest, alive)
    ensures Carried(w, fuel, a + b, x, rest, alive)
  {
    var k := if |b| <= left then |b| else left;
    assert a[..|a|] == a;
    assert (a + b)[..|a| + k] == a + b[..k];
    ExecAllAppend(w, a, b[..k]);
  }

  lemma CarriedKilled(w: World, fuel: nat, a: seq<Effect>, v: World, left: nat, b: seq<Effect>)
    requires Carried(w, fuel, a, v, left, false)
    ensures Carried(w, fuel, a + b, v, left, false)
  {
    assert (a + b)[..fuel] == a[..fuel];
  }

  lemma CarriedAll(w: World, fuel: nat, a: seq<Effect>, v: World, left: nat)
    requires Carried(w, fuel, a, v, left, true)
    ensures v == ExecAll(w, a) && left == fuel - |a|
  {
    assert a[..|a|] == a;
  }

  lemma CarriedOne(w: World, fuel: nat, f: Effect, v: World, left: nat)
    requires Carried(w, fuel, [f], v, left, true)
    ensures v == Exec(w, f) && left == fuel - 1
  {
    CarriedAll(w, fuel, [f], v, left);
  }

  /** Killed after any number of effects, a safe plan leaves the invariant standing. */
  lemma {:induction false} PrefixKeepsInv(t: Terms, w: World, plan: seq<Effect>, k: nat)
    requires Inv(t, w) && Safe(t, w, plan) && k <= |plan|
    ensures Inv(t, ExecAll(w, plan[..k]))
    decreases plan
  {
    if k > 0 {
      GuardedKeepsInv(t, w, plan[0]);
      PrefixKeepsInv(t, Exec(w, plan[0]), plan[1..], k - 1);
      assert plan[..k][1..] == plan[1..][..k - 1];
    }
  }

  // ----- A pass, with the chains moving between its calls ---------------------------------------------

  /** What is left of a process: the world, how many effects it lives to make, and how many calls it has made. */
  datatype Outcome = Outcome(world: World, fuel: nat, calls: nat, alive: bool)

  function Weight(script: seq<Call>): nat {
    if script == [] then 0
    else (if script[0].OwnLegOncePaid? then 4 else if script[0].Send? then 2 else 1) + Weight(script[1..])
  }

  lemma WeightFalls(t: Terms, w: World, script: seq<Call>, a: Answers)
    requires script != [] && IsStep(t, script[0].n) && |w.rows| == |t.steps|
    ensures Weight(ScriptAfter(t, w, script[0], script[1..], a)) < Weight(script)
  {
    var n, rest := script[0].n, script[1..];
    assert ([LookOut(n)] + rest)[1..] == rest;
    assert ([LookOut(n), Send(n)] + rest)[1..] == [Send(n)] + rest;
    assert ([Send(n)] + rest)[1..] == rest;
  }

  /** The rest of a pass: every call reads the chains as they are then, and `outside` moves them on. */
  ghost function Ended(t: Terms, outside: (nat, World) -> World, answers: nat -> Answers,
                       at: Outcome, script: seq<Call>): Outcome
    decreases Weight(script)
  {
    if script == [] || !IsStep(t, script[0].n) || |at.world.rows| != |t.steps| then at
    else
      var a := answers(at.calls);
      var plan := CallPlan(t, at.world, script[0], a);
      if |plan| > at.fuel then Outcome(ExecAll(at.world, plan[..at.fuel]), 0, at.calls, false)
      else
        WeightFalls(t, at.world, script, a);
        Ended(t, outside, answers, MovedOn(outside, at, plan), ScriptAfter(t, at.world, script[0], script[1..], a))
  }

  /** After a call whose effects are all carried out. */
  ghost function MovedOn(outside: (nat, World) -> World, at: Outcome, plan: seq<Effect>): Outcome
    requires |plan| <= at.fuel
  {
    var v := ExecAll(at.world, plan);
    Outcome(Moved(v, outside(at.calls, v)), at.fuel - |plan|, at.calls + 1, true)
  }

  /** The events of that pass. */
  ghost function Trace(t: Terms, outside: (nat, World) -> World, answers: nat -> Answers,
                       at: Outcome, script: seq<Call>): seq<Event>
    decreases Weight(script)
  {
    if script == [] || !IsStep(t, script[0].n) || |at.world.rows| != |t.steps| then []
    else
      var a := answers(at.calls);
      var plan := CallPlan(t, at.world, script[0], a);
      if |plan| > at.fuel then [Next(a)] + (Carries(at.fuel) + [Crash])
      else
        WeightFalls(t, at.world, script, a);
        var next := MovedOn(outside, at, plan);
        [Next(a)] + (Carries(|plan|) + ([Outside(next.world)]
          + Trace(t, outside, answers, next, ScriptAfter(t, at.world, script[0], script[1..], a))))
  }

  lemma {:induction false} CarrySome(t: Terms, c: Config, k: nat)
    requires k <= |c.todo|
    ensures EndOf(t, c, Carries(k)) == Config(ExecAll(c.world, c.todo[..k]), c.todo[k..], c.script)
    decreases k
  {
    if k > 0 {
      assert Carries(k)[1..] == Carries(k - 1);
      CarrySome(t, After(t, c, Carry), k - 1);
      assert c.todo[..k][1..] == c.todo[1..][..k - 1] && c.todo[1..][k - 1..] == c.todo[k..];
    }
  }

  lemma FirstEvent(t: Terms, c: Config, e: Event, more: seq<Event>)
    ensures EndOf(t, c, [e] + more) == EndOf(t, After(t, c, e), more)
  {
    assert ([e] + more)[1..] == more;
  }

  /** A call in whose effects the process dies. */
  lemma KilledCall(t: Terms, c: Config, k: nat)
    requires k <= |c.todo|
    ensures EndOf(t, c, Carries(k) + [Crash]) == Config(ExecAll(c.world, c.todo[..k]), [], [])
  {
    RunsAppend(t, c, Carries(k), [Crash]);
    CarrySome(t, c, k);
    FirstEvent(t, EndOf(t, c, Carries(k)), Crash, []);
    assert [Crash] + [] == [Crash];
  }

  /** A call carried out, and the chains moving on after it. */
  lemma CarriedCall(t: Terms, c: Config, seen: World, more: seq<Event>)
    ensures EndOf(t, c, Carries(|c.todo|) + ([Outside(seen)] + more))
         == EndOf(t, Config(Moved(ExecAll(c.world, c.todo), seen), [], c.script), more)
  {
    RunsAppend(t, c, Carries(|c.todo|), [Outside(seen)] + more);
    CarrySome(t, c, |c.todo|);
    assert c.todo[..|c.todo|] == c.todo && c.todo[|c.todo|..] == [];
    FirstEvent(t, Config(ExecAll(c.world, c.todo), [], c.script), Outside(seen), more);
  }

  /** The pass ends where its events end. */
  lemma {:induction false} TraceEnds(t: Terms, outside: (nat, World) -> World, answers: nat -> Answers,
                                     at: Outcome, script: seq<Call>)
    requires |at.world.rows| == |t.steps| && forall i :: 0 <= i < |script| ==> IsStep(t, script[i].n)
    ensures EndOf(t, Config(at.world, [], script), Trace(t, outside, answers, at, script))
         == Config(Ended(t, outside, answers, at, script).world, [], [])
    decreases Weight(script)
  {
    if script != [] {
      var a := answers(at.calls);
      var plan := CallPlan(t, at.world, script[0], a);
      var rest := ScriptAfter(t, at.world, script[0], script[1..], a);
      var b, c := Config(at.world, [], script), Config(at.world, plan, rest);
      assert After(t, b, Next(a)) == c;
      hide CallPlan, ScriptAfter, EndOf, After;
      if |plan| > at.fuel {
        FirstEvent(t, b, Next(a), Carries(at.fuel) + [Crash]);
        KilledCall(t, c, at.fuel);
      } else {
        WeightFalls(t, at.world, script, a);
        var next := MovedOn(outside, at, plan);
        var more := Trace(t, outside, answers, next, rest);
        FirstEvent(t, b, Next(a), Carries(|plan|) + ([Outside(next.world)] + more));
        CarriedCall(t, c, next.world, more);
        assert Moved(ExecAll(at.world, plan), next.world) == next.world;
        ExecAllRows(at.world, plan);
        RestIsSteps(t, at.world, script, a);
        TraceEnds(t, outside, answers, next, rest);
      }
    }
  }

  lemma RestIsSteps(t: Terms, w: World, script: seq<Call>, a: Answers)
    requires script != [] && |w.rows| == |t.steps| && forall i :: 0 <= i < |script| ==> IsStep(t, script[i].n)
    ensures var rest := ScriptAfter(t, w, script[0], script[1..], a);
            forall i :: 0 <= i < |rest| ==> IsStep(t, rest[i].n)
  {
  }

  ghost function PassEvents(t: Terms, outside: (nat, World) -> World, answers: nat -> Answers, at: Outcome): seq<Event> {
    [Event.Advance] + Trace(t, outside, answers, at, PassScript(t, at.world.rows))
  }

  /** A pass is a run: where its moves of the chains are possible ones and it forgets nothing live, the invariant holds at its end. */
  lemma PassIsARun(t: Terms, outside: (nat, World) -> World, answers: nat -> Answers, at: Outcome)
    requires |at.world.rows| == |t.steps|
    ensures var c := Config(at.world, [], []);
            var events := PassEvents(t, outside, answers, at);
            var end := Ended(t, outside, answers, at, PassScript(t, at.world.rows)).world;
            && EndOf(t, c, events) == Config(end, [], [])
            && (Inv(t, at.world) && Runs(t, c, events) && Spared(t, c, events) ==> Inv(t, end))
  {
    var c := Config(at.world, [], []);
    var script := PassScript(t, at.world.rows);
    var events := PassEvents(t, outside, answers, at);
    FirstEvent(t, c, Event.Advance, Trace(t, outside, answers, at, script));
    TraceEnds(t, outside, answers, at, script);
    if Inv(t, at.world) && Runs(t, c, events) && Spared(t, c, events) {
      assert Good(t, c);
      if !t.sendsLapse {
        XlmIsCareful(t, c, events);
      }
      RunKeeps(t, c, events);
    }
  }

  /** One call of a pass, made and, if the process lives, waited out. */
  lemma CallMade(t: Terms, outside: (nat, World) -> World, answers: nat -> Answers, at: Outcome, script: seq<Call>,
                 v: World, left: nat, alive: bool)
    requires script != [] && IsStep(t, script[0].n) && |at.world.rows| == |t.steps|
    requires Carried(at.world, at.fuel, CallPlan(t, at.world, script[0], answers(at.calls)), v, left, alive)
    ensures var end := Ended(t, outside, answers, at, script);
            if !alive then end == Outcome(v, 0, at.calls, false) && left == 0
            else end == Ended(t, outside, answers, Outcome(Moved(v, outside(at.calls, v)), left, at.calls + 1, true),
                              ScriptAfter(t, at.world, script[0], script[1..], answers(at.calls)))
  {
    hide ScriptAfter, CallPlan;
    var plan := CallPlan(t, at.world, script[0], answers(at.calls));
    assert plan[..|plan|] == plan;
  }

  lemma EndedNothing(t: Terms, outside: (nat, World) -> World, answers: nat -> Answers)
    ensures forall at {:trigger Ended(t, outside, answers, at, [])} :: Ended(t, outside, answers, at, []) == at
  {
  }

  lemma SettledSendsNothing(t: Terms, w: World, n: nat, a: Answers)
    requires IsStep(t, n) && |w.rows| == |t.steps| && w.rows[n - 1].out == Settled
    ensures CallPlan(t, w, Send(n), a) == []
  {
  }

  class Engine {
    const terms: Terms
    /** How the chains move on after each call, and what each call is answered. */
    const outside: (nat, World) -> World
    const answers: nat -> Answers
    var account: seq<Applied>
    var final: nat
    var tip: int
    var released: set<Envelope>
    var pool: seq<Tx>
    var inbound: map<nat, int>
    var rows: seq<Row>
    /** How many more saves and submissions this process lives to make, and how many calls it has made. */
    var fuel: nat
    var calls: nat

    function Here(): World
      reads this
    {
      World(account, final, tip, released, pool, inbound, rows)
    }

    ghost function Standing(): Outcome
      reads this
    {
      Outcome(Here(), fuel, calls, true)
    }

    ghost predicate Valid()
      reads this
    {
      |rows| == |terms.steps|
    }

    constructor (t: Terms, w: World, lives: nat, moves: (nat, World) -> World, replies: nat -> Answers)
      requires |w.rows| == |t.steps|
      ensures terms == t && outside == moves && answers == replies && Standing() == Outcome(w, lives, 0, true)
    {
      terms, outside, answers, account, final, tip := t, moves, replies, w.account, w.final, w.tip;
      released, pool, inbound, rows, fuel, calls := w.released, w.pool, w.inbound, w.rows, lives, 0;
    }

    /** Until the next call, the chains go where they go. */
    method Wait()
      requires Valid()
      modifies this`account, this`final, this`tip, this`pool, this`inbound, this`calls
      ensures Valid() && fuel == old(fuel) && calls == old(calls) + 1
      ensures Here() == Moved(old(Here()), outside(old(calls), old(Here())))
    {
      var v := outside(calls, Here());
      account, final, tip, pool, inbound := v.account, v.final, v.tip, v.pool, v.inbound;
      calls := calls + 1;
    }

    method SaveRow(n: nat, row: Row) returns (alive: bool)
      requires Valid() && IsStep(terms, n)
      modifies this`rows, this`fuel
      ensures Valid() && Carried(old(Here()), old(fuel), [Save(n, row)], Here(), fuel, alive)
    {
      alive := fuel > 0;
      ghost var w := Here();
      if alive {
        rows := rows[n - 1 := row];
        fuel := fuel - 1;
        assert [Save(n, row)][..1] == [Save(n, row)];
        assert ExecAll(w, [Save(n, row)]) == Exec(w, Save(n, row));
      }
    }

    /** Hands an envelope to the network; `answer` is what the call reports back. */
    method SubmitEnvelope(e: Envelope, answer: bool) returns (alive: bool)
      requires Valid()
      modifies this`pool, this`released, this`fuel
      ensures Valid() && Carried(old(Here()), old(fuel), [Submit(e, answer)], Here(), fuel, alive)
    {
      alive := fuel > 0;
      ghost var w := Here();
      if alive {
        released := released + {e};
        if answer {
          pool := pool + [Pay(e)];
        }
        fuel := fuel - 1;
        assert [Submit(e, answer)][..1] == [Submit(e, answer)];
        assert ExecAll(w, [Submit(e, answer)]) == Exec(w, Submit(e, answer));
      }
    }

    method DropStaleDeadline(n: nat) returns (alive: bool)
      requires Valid() && IsStep(terms, n)
      modifies this`rows, this`fuel
      ensures Valid()
      ensures Carried(old(Here()), old(fuel), Unpropagate(terms, old(Here()), n, old(rows)[n - 1]), Here(), fuel, alive)
    {
      var row := rows[n - 1];
      ghost var w, f := Here(), fuel;
      if row.completed == 0 {
        CarriedNothing(Here(), fuel);
        return true;
      }
      var stale := n < |rows| && rows[n].deadline == row.completed + StepBudget(terms);
      alive := SaveRow(n, row.(completed := 0));
      ghost var first := [Save(n, row.(completed := 0))];
      if stale {
        ghost var second := [Save(n + 1, w.rows[n].(deadline := 0))];
        if !alive {
          CarriedKilled(w, f, first, Here(), fuel, second);
          return;
        }
        CarriedOne(w, f, first[0], Here(), fuel);
        ghost var v, g := Here(), fuel;
        alive := SaveRow(n + 1, rows[n].(deadline := 0));
        CarriedAppend(w, f, first, v, g, second, Here(), fuel, alive);
      } else {
        assert first + [] == first;
      }
    }

    method CheckOutboundLeg(n: nat) returns (alive: bool)
      requires Valid() && IsStep(terms, n)
      modifies this`rows, this`fuel
      ensures Valid()
      ensures Carried(old(Here()), old(fuel), CheckOutbound(terms, old(Here()), n), Here(), fuel, alive)
    {
      var row := rows[n - 1];
      ghost var w, f := Here(), fuel;
      if row.txId.None? {
        CarriedNothing(Here(), fuel);
        return true;
      }
      var depth := Confirmations(terms, Here(), row.txId.value);
      if depth.Some? {
        alive := SaveRow(n, row.(out := if depth.value >= RequiredDepth(terms, terms.sendsLapse) then Settled else Submitted));
        assert row.(txId := Some(row.txId.value)) == row;
        return;
      }
      var first := row.(out := Submitted);
      alive := SaveRow(n, first);
      if !alive {
        CarriedKilled(w, f, [Save(n, first)], Here(), fuel, Unpropagate(terms, w, n, first));
        return;
      }
      CarriedAll(w, f, [Save(n, first)], Here(), fuel);
      ghost var v, g := Here(), fuel;
      alive := DropStaleDeadline(n);
      assert Unpropagate(terms, v, n, first) == Unpropagate(terms, w, n, first);
      CarriedAppend(w, f, [Save(n, first)], v, g, Unpropagate(terms, w, n, first), Here(), fuel, alive);
    }

    method CheckInboundLeg(n: nat, a: Answers) returns (alive: bool)
      requires Valid() && IsStep(terms, n)
      modifies this`rows, this`fuel
      ensures Valid()
      ensures Carried(old(Here()), old(fuel), CheckInbound(terms, old(Here()), n, a), Here(), fuel, alive)
    {
      var row := rows[n - 1];
      ghost var w, f := Here(), fuel;
      var settled := InSettled(terms, Here(), n);
      if row.inSettled && row.inSeen {
        if settled && !Shadowed(terms, a) {
          CarriedNothing(Here(), fuel);
          return true;
        }
        var first := row.(inSettled := false);
        alive := SaveRow(n, first);
        if !alive {
          CarriedKilled(w, f, [Save(n, first)], Here(), fuel, Unpropagate(terms, w, n, first));
          return;
        }
        CarriedAll(w, f, [Save(n, first)], Here(), fuel);
        ghost var v, g := Here(), fuel;
        alive := DropStaleDeadline(n);
        assert Unpropagate(terms, v, n, first) == Unpropagate(terms, w, n, first);
        CarriedAppend(w, f, [Save(n, first)], v, g, Unpropagate(terms, w, n, first), Here(), fuel, alive);
        return;
      }
      if !Shadowed(terms, a) && n !in inbound {
        CarriedNothing(Here(), fuel);
        return true;
      }
      if !Shadowed(terms, a) && settled {
        alive := SaveRow(n, row.(inSeen := true, inSettled := true));
      } else {
        alive := SaveRow(n, row.(inSeen := true));
      }
    }

    /** Written down, then sent, then written down again, at the least nonce free on the chain and in the mempool. */
    method BuildNew(n: nat, row: Row, a: Answers) returns (alive: bool)
      requires Valid() && IsStep(terms, n)
      modifies this`rows, this`pool, this`released, this`fuel
      ensures Valid()
      ensures Carried(old(Here()), old(fuel), BuildAndSend(terms, old(Here()), n, row, a), Here(), fuel, alive)
      ensures TakesLeastFree(old(Here()), Here())
    {
      ghost var w, f := Here(), fuel;
      BuildTakesLeastFree(terms, w, n, row, a, Min(|BuildAndSend(terms, w, n, row, a)|, f));
      hide TakesLeastFree;
      if !a.unlocked {
        CarriedNothing(Here(), fuel);
        return true;
      }
      var e := FreshEnvelope(terms, Here(), n);
      var intent := row.(envelope := Some(e), txId := Some(e), out := Intent);
      var last := if a.sent then intent.(out := Submitted) else intent;
      ghost var p1, p2, p3 := [Save(n, intent)], [Submit(e, a.sent)], [Save(n, last)];
      assert p1 + p2 + p3 == BuildAndSend(terms, w, n, row, a);
      alive := SaveRow(n, intent);
      if !alive {
        CarriedKilled(w, f, p1, Here(), fuel, p2);
        CarriedKilled(w, f, p1 + p2, Here(), fuel, p3);
        return;
      }
      ghost var v, g := Here(), fuel;
      alive := SubmitEnvelope(e, a.sent);
      CarriedAppend(w, f, p1, v, g, p2, Here(), fuel, alive);
      if !alive {
        CarriedKilled(w, f, p1 + p2, Here(), fuel, p3);
        return;
      }
      v, g := Here(), fuel;
      alive := SaveRow(n, last);
      CarriedAppend(w, f, p1 + p2, v, g, p3, Here(), fuel, alive);
    }

    /** Re-submits exactly what is stored, and builds anew only when that can never apply. */
    method ResendStored(n: nat, a: Answers) returns (alive: bool)
      requires Valid() && IsStep(terms, n) && rows[n - 1].envelope.Some?
      modifies this`rows, this`pool, this`released, this`fuel
      ensures Valid()
      ensures Carried(old(Here()), old(fuel), Resend(terms, old(Here()), n, old(rows)[n - 1], a), Here(), fuel, alive)
    {
      ghost var w, f := Here(), fuel;
      var row := rows[n - 1];
      var e := row.envelope.value;
      var spent := !a.resent && SequenceConsumed(Here(), e);
      var next := AfterResend(Here(), row, a);
      ghost var p1, p2 := [Submit(e, a.resent)], [Save(n, next)];
      ghost var p3 := if spent then BuildAndSend(terms, w, n, next, a) else [];
      assert p1 + p2 + p3 == Resend(terms, w, n, row, a);
      alive := SubmitEnvelope(e, a.resent);
      if !alive {
        CarriedKilled(w, f, p1, Here(), fuel, p2);
        CarriedKilled(w, f, p1 + p2, Here(), fuel, p3);
        return;
      }
      CarriedOne(w, f, p1[0], Here(), fuel);
      ghost var v, g := Here(), fuel;
      alive := SaveRow(n, next);
      CarriedAppend(w, f, p1, v, g, p2, Here(), fuel, alive);
      if !alive {
        CarriedKilled(w, f, p1 + p2, Here(), fuel, p3);
        return;
      }
      CarriedOne(v, g, p2[0], Here(), fuel);
      if spent {
        v, g := Here(), fuel;
        alive := BuildNew(n, next, a);
        assert BuildAndSend(terms, v, n, next, a) == p3;
        CarriedAppend(w, f, p1 + p2, v, g, p3, Here(), fuel, alive);
      } else {
        assert p1 + p2 + p3 == p1 + p2;
      }
    }

    /** Look on the chain first, re-send what is stored second, build only when both say there is nothing. */
    method EnsureLegSent(n: nat, a: Answers) returns (alive: bool, locked: bool)
      requires Valid() && IsStep(terms, n)
      modifies this`rows, this`pool, this`released, this`fuel
      ensures Valid()
      ensures Carried(old(Here()), old(fuel), EnsureSent(terms, old(Here()), n, a), Here(), fuel, alive)
      ensures alive ==> locked == StopsLocked(terms, old(Here()), n, a)
    {
      ghost var w := Here();
      var row := rows[n - 1];
      if row.out == Settled {
        CarriedNothing(w, fuel);
        return true, false;
      }
      var found := FindPayment(terms, Here(), n);
      if found.Some? {
        alive := SaveRow(n, row.(txId := Some(found.value.env),
          out := if found.value.depth >= RequiredDepth(terms, terms.sendsLapse) then Settled else Submitted));
        return alive, false;
      }
      if HasLiveClaim(row) {
        locked := !a.unlocked && !a.resent && SequenceConsumed(Here(), row.envelope.value);
        alive := ResendStored(n, a);
      } else {
        locked := !a.unlocked;
        alive := BuildNew(n, row, a);
      }
    }

    method Time(n: nat) returns (alive: bool)
      requires Valid() && IsStep(terms, n)
      modifies this`rows, this`fuel
      ensures Valid()
      ensures Carried(old(Here()), old(fuel), UpdateTiming(terms, old(Here()), n), Here(), fuel, alive)
    {
      var row := rows[n - 1];
      ghost var w, f := Here(), fuel;
      if row.out != Settled || !row.inSettled || row.completed != 0 {
        CarriedNothing(Here(), fuel);
        return true;
      }
      ghost var p1 := [Save(n, row.(completed := tip))];
      var unset := n < |rows| && rows[n].deadline == 0;
      alive := SaveRow(n, row.(completed := tip));
      if unset {
        ghost var p2 := [Save(n + 1, w.rows[n].(deadline := tip + StepBudget(terms)))];
        if !alive {
          CarriedKilled(w, f, p1, Here(), fuel, p2);
          return;
        }
        CarriedOne(w, f, p1[0], Here(), fuel);
        ghost var v, g := Here(), fuel;
        alive := SaveRow(n + 1, rows[n].(deadline := tip + StepBudget(terms)));
        CarriedAppend(w, f, p1, v, g, p2, Here(), fuel, alive);
      } else {
        assert p1 + [] == p1;
      }
    }

    /** Looks at this node's own leg, as the next call of a pass. */
    method LookOutNext(n: nat, rest: seq<Call>) returns (alive: bool)
      requires Valid() && IsStep(terms, n)
      modifies this`rows, this`fuel, this`account, this`final, this`tip, this`pool, this`inbound, this`calls
      ensures Valid()
      ensures var end := Ended(terms, outside, answers, old(Standing()), [LookOut(n)] + rest);
              if !alive then end == Outcome(Here(), 0, calls, false) && fuel == 0
              else end == Ended(terms, outside, answers, Standing(), rest)
    {
      hide CheckOutbound, Carried, Ended, Moved;
      ghost var at := Standing();
      alive := CheckOutboundLeg(n);
      CallMade(terms, outside, answers, at, [LookOut(n)] + rest, Here(), fuel, alive);
      assert ([LookOut(n)] + rest)[1..] == rest;
      if alive {
        Wait();
      }
    }

    /** Looks for the peer's leg, where this node's own is out or need not be. */
    method LookInNext(n: nat, needsOwn: bool, rest: seq<Call>) returns (alive: bool)
      requires Valid() && IsStep(terms, n)
      modifies this`rows, this`fuel, this`account, this`final, this`tip, this`pool, this`inbound, this`calls
      ensures Valid()
      ensures var end := Ended(terms, outside, answers, old(Standing()),
                               [if needsOwn then LookInOnceSent(n) else LookIn(n)] + rest);
              if !alive then end == Outcome(Here(), 0, calls, false) && fuel == 0
              else end == Ended(terms, outside, answers, Standing(), rest)
    {
      hide CheckInbound, Carried, Ended, Moved;
      ghost var at := Standing();
      ghost var script := [if needsOwn then LookInOnceSent(n) else LookIn(n)] + rest;
      if needsOwn && rows[n - 1].out != Settled {
        CarriedNothing(at.world, fuel);
        alive := true;
      } else {
        alive := CheckInboundLeg(n, answers(calls));
      }
      CallMade(terms, outside, answers, at, script, Here(), fuel, alive);
      assert script[1..] == rest;
      if alive {
        Wait();
      }
    }

    method ClockNext(n: nat) returns (alive: bool)
      requires Valid() && IsStep(terms, n)
      modifies this`rows, this`fuel, this`account, this`final, this`tip, this`pool, this`inbound, this`calls
      ensures Valid()
      ensures Ended(terms, outside, answers, old(Standing()), [Clock(n)]) == Outcome(Here(), fuel, calls, alive)
    {
      hide UpdateTiming, Carried, Moved;
      ghost var at := Standing();
      alive := Time(n);
      CallMade(terms, outside, answers, at, [Clock(n)], Here(), fuel, alive);
      if alive {
        Wait();
      }
    }

    /** This node's own leg, looked at again once it has been sent. */
    method SendAndLook(n: nat, rest: seq<Call>) returns (alive: bool, over: bool)
      requires Valid() && IsStep(terms, n)
      modifies this`rows, this`pool, this`released, this`fuel, this`account, this`final, this`tip, this`inbound, this`calls
      ensures Valid()
      ensures var end := Ended(terms, outside, answers, old(Standing()), [Send(n)] + rest);
              if !alive then end == Outcome(Here(), 0, calls, false) && fuel == 0
              else end == Ended(terms, outside, answers, Standing(), if over then [] else rest)
    {
      hide EnsureSent, StopsLocked, FindPayment, Carried, Ended, Moved;
      ghost var at := Standing();
      over := false;
      var a, unsettled := answers(calls), rows[n - 1].out != Settled;
      if !unsettled {
        CarriedNothing(at.world, fuel);
        alive := true;
        SettledSendsNothing(terms, at.world, n, a);
      } else {
        alive, over := EnsureLegSent(n, a);
      }
      CallMade(terms, outside, answers, at, [Send(n)] + rest, Here(), fuel, alive);
      assert ([Send(n)] + rest)[1..] == rest;
      if !alive {
        return;
      }
      Wait();
      if unsettled && !over {
        alive := LookOutNext(n, rest);
      }
    }
  
    /** The first mover sends, then watches. */
    method AdvanceAsFirst(n: nat) returns (alive: bool)
      requires Valid() && IsStep(terms, n)
      modifies this
      ensures Valid()
      ensures Ended(terms, outside, answers, old(Standing()), [LookOut(n), Send(n), LookInOnceSent(n), Clock(n)])
           == Outcome(Here(), fuel, calls, alive)
    {
      EndedNothing(terms, outside, answers);
      hide Ended;
      assert [LookOut(n), Send(n), LookInOnceSent(n), Clock(n)] == [LookOut(n)] + [Send(n), LookInOnceSent(n), Clock(n)];
      alive := LookOutNext(n, [Send(n), LookInOnceSent(n), Clock(n)]);
      if !alive {
        return;
      }
      assert [Send(n), LookInOnceSent(n), Clock(n)] == [Send(n)] + [LookInOnceSent(n), Clock(n)];
      var over;
      alive, over := SendAndLook(n, [LookInOnceSent(n), Clock(n)]);
      if !alive || over {
        return;
      }
      assert [LookInOnceSent(n), Clock(n)] == [LookInOnceSent(n)] + [Clock(n)];
      alive := LookInNext(n, true, [Clock(n)]);
      if alive {
        alive := ClockNext(n);
      }
    }

    /** Whether the peer has paid, as the next call of a pass. */
    method PaidNext(n: nat, rest: seq<Call>) returns (paid: bool)
      requires Valid() && IsStep(terms, n)
      modifies this`account, this`final, this`tip, this`pool, this`inbound, this`calls
      ensures Valid()
      ensures Ended(terms, outside, answers, old(Standing()), [OwnLegOncePaid(n)] + rest)
           == Ended(terms, outside, answers, Standing(), if paid then [LookOut(n)] + ([Send(n)] + rest) else rest)
    {
      hide Ended, Moved;
      ghost var at := Standing();
      CarriedNothing(at.world, fuel);
      CallMade(terms, outside, answers, at, [OwnLegOncePaid(n)] + rest, Here(), fuel, true);
      assert ([OwnLegOncePaid(n)] + rest)[1..] == rest;
      assert [LookOut(n), Send(n)] + rest == [LookOut(n)] + ([Send(n)] + rest);
      paid := rows[n - 1].inSettled;
      Wait();
    }

    /** The second mover watches, and sends only once the peer has paid. */
    method AdvanceAsSecond(n: nat) returns (alive: bool)
      requires Valid() && IsStep(terms, n)
      modifies this
      ensures Valid()
      ensures Ended(terms, outside, answers, old(Standing()), [LookIn(n), OwnLegOncePaid(n), Clock(n)])
           == Outcome(Here(), fuel, calls, alive)
    {
      EndedNothing(terms, outside, answers);
      hide Ended;
      assert [LookIn(n), OwnLegOncePaid(n), Clock(n)] == [LookIn(n)] + ([OwnLegOncePaid(n)] + [Clock(n)]);
      alive := LookInNext(n, false, [OwnLegOncePaid(n)] + [Clock(n)]);
      if !alive {
        return;
      }
      var paid := PaidNext(n, [Clock(n)]);
      if paid {
        alive := LookOutNext(n, [Send(n)] + [Clock(n)]);
        if !alive {
          return;
        }
        var over;
        alive, over := SendAndLook(n, [Clock(n)]);
        if !alive || over {
          return;
        }
      }
      alive := ClockNext(n);
    }

    /**
     One pass over the trade, the chains moving between its calls, killed after any number of effects:
     it is the run of those events, and the invariant holds at its end whenever those moves are possible
     ones and no live envelope is given up.
     */
    method Advance() returns (alive: bool)
      requires Valid()
      modifies this
      ensures Valid()
      ensures var c := Config(old(Here()), [], []);
              var events := PassEvents(terms, outside, answers, old(Standing()));
              && EndOf(terms, c, events) == Config(Here(), [], [])
              && (Inv(terms, old(Here())) && Runs(terms, c, events) && Spared(terms, c, events) ==> Inv(terms, Here()))
    {
      PassIsARun(terms, outside, answers, Standing());
      alive := true;
      var n := 1;
      while n <= |rows| && StepDone(rows, n)
        invariant 1 <= n <= |rows| + 1 && Valid() && Standing() == old(Standing()) && alive
        invariant FirstOpen(rows, 1) == FirstOpen(rows, n)
      {
        n := n + 1;
      }
      if n <= |rows| {
        if MovesFirst(n, terms.opens) {
          alive := AdvanceAsFirst(n);
        } else {
          alive := AdvanceAsSecond(n);
        }
      }
    }

    /** Writes down a payment the chains show for a row that names none. */
    method RecoverNext(n: nat, rest: seq<Call>) returns (alive: bool)
      requires Valid() && IsStep(terms, n)
      modifies this`rows, this`fuel, this`account, this`final, this`tip, this`pool, this`inbound, this`calls
      ensures Valid()
      ensures var end := Ended(terms, outside, answers, old(Standing()), [Recover(n)] + rest);
              if !alive then end == Outcome(Here(), 0, calls, false) && fuel == 0
              else end == Ended(terms, outside, answers, Standing(), rest)
    {
      hide FindPayment, Ended, Moved, Carried;
      ghost var at := Standing();
      CarriedNothing(at.world, fuel);
      alive := true;
      if rows[n - 1].txId.None? {
        var found := FindPayment(terms, Here(), n);
        if found.Some? {
          alive := SaveRow(n, rows[n - 1].(txId := Some(found.value.env),
            out := if found.value.depth >= RequiredDepth(terms, terms.sendsLapse) then Settled else Submitted));
        }
      }
      CallMade(terms, outside, answers, at, [Recover(n)] + rest, Here(), fuel, alive);
      assert ([Recover(n)] + rest)[1..] == rest;
      if alive {
        Wait();
      }
    }

    /** The startup pass over one step: believe the chains, send nothing. */
    method ReconcileOne(n: nat) returns (alive: bool)
      requires Valid() && IsStep(terms, n)
      modifies this
      ensures Valid()
      ensures Ended(terms, outside, answers, old(Standing()), RecoveryScript(n)) == Outcome(Here(), fuel, calls, alive)
    {
      EndedNothing(terms, outside, answers);
      hide Ended;
      assert RecoveryScript(n) == [LookOut(n)] + ([Recover(n)] + ([LookIn(n)] + []));
      alive := LookOutNext(n, [Recover(n)] + ([LookIn(n)] + []));
      if alive {
        alive := RecoverNext(n, [LookIn(n)] + []);
      }
      if alive {
        alive := LookInNext(n, false, []);
      }
    }

    /** The startup pass over every step, killed after any number of saves: step by step it is the run of its events. */
    method Reconcile() returns (alive: bool)
      requires Valid()
      modifies this
      ensures Valid()
      ensures RecoveredFrom(terms, outside, answers, old(Standing()), 1) == Outcome(Here(), fuel, calls, alive)
    {
      alive := true;
      var n := 1;
      while n <= |rows| && alive
        invariant Valid() && 1 <= n <= |rows| + 1
        invariant RecoveredFrom(terms, outside, answers, old(Standing()), 1)
               == if alive then RecoveredFrom(terms, outside, answers, Standing(), n) else Outcome(Here(), fuel, calls, false)
      {
        alive := ReconcileOne(n);
        n := n + 1;
      }
    }
  }

  /** Every step from `n` on, recovered in turn until the process dies. */
  ghost function RecoveredFrom(t: Terms, outside: (nat, World) -> World, answers: nat -> Answers, at: Outcome, n: nat): Outcome
    decreases |t.steps| + 1 - n
  {
    if n > |t.steps| || !at.alive then at
    else RecoveredFrom(t, outside, answers, Ended(t, outside, answers, at, RecoveryScript(n)), n + 1)
  }

  ghost predicate SendsNothing(script: seq<Call>) {
    forall i :: 0 <= i < |script| ==> !script[i].Send? && !script[i].OwnLegOncePaid?
  }

  lemma KilledCallIsCareful(t: Terms, c: Config, k: nat)
    ensures Careful(t, c, Carries(k) + [Crash])
  {
    CarryIsCareful(t, c, k);
    RunsAppend(t, c, Carries(k), [Crash]);
  }

  lemma CarriedCallIsCareful(t: Terms, c: Config, seen: World, more: seq<Event>)
    requires Careful(t, Config(Moved(ExecAll(c.world, c.todo), seen), [], c.script), more)
    ensures Careful(t, c, Carries(|c.todo|) + ([Outside(seen)] + more))
  {
    CarryIsCareful(t, c, |c.todo|);
    CarrySome(t, c, |c.todo|);
    assert c.todo[..|c.todo|] == c.todo && c.todo[|c.todo|..] == [];
    CarefulCons(t, Config(ExecAll(c.world, c.todo), [], c.script), Outside(seen), more);
    RunsAppend(t, c, Carries(|c.todo|), [Outside(seen)] + more);
  }

  /** Where no call is a send, nothing live is given up. */
  lemma {:induction false} NoSendIsCareful(t: Terms, outside: (nat, World) -> World, answers: nat -> Answers,
                                           at: Outcome, script: seq<Call>)
    requires |at.world.rows| == |t.steps| && SendsNothing(script)
    ensures Careful(t, Config(at.world, [], script), Trace(t, outside, answers, at, script))
    decreases Weight(script)
  {
    if script != [] && IsStep(t, script[0].n) {
      var a := answers(at.calls);
      var plan, rest := CallPlan(t, at.world, script[0], a), script[1..];
      var c, d := Config(at.world, [], script), Config(at.world, plan, rest);
      assert After(t, c, Next(a)) == d && !Forgets(t, c, Next(a));
      hide CallPlan, Careful, After, Forgets;
      if |plan| > at.fuel {
        KilledCallIsCareful(t, d, at.fuel);
        CarefulCons(t, c, Next(a), Carries(at.fuel) + [Crash]);
      } else {
        WeightFalls(t, at.world, script, a);
        var next := MovedOn(outside, at, plan);
        var more := Trace(t, outside, answers, next, rest);
        ExecAllRows(at.world, plan);
        NoSendIsCareful(t, outside, answers, next, rest);
        assert Moved(ExecAll(at.world, plan), next.world) == next.world;
        CarriedCallIsCareful(t, d, next.world, more);
        CarefulCons(t, c, Next(a), Carries(|plan|) + ([Outside(next.world)] + more));
      }
    }
  }

  lemma {:induction false} CarryIsCareful(t: Terms, c: Config, k: nat)
    ensures Careful(t, c, Carries(k))
    decreases k
  {
    if k > 0 {
      assert Carries(k)[1..] == Carries(k - 1);
      CarryIsCareful(t, After(t, c, Carry), k - 1);
    }
  }

  lemma CarefulCons(t: Terms, c: Config, e: Event, more: seq<Event>)
    requires !Forgets(t, c, e) && Careful(t, After(t, c, e), more)
    ensures Careful(t, c, [e] + more)
  {
    assert ([e] + more)[1..] == more;
  }

  /** The startup pass over a step is a run that sends nothing, so the invariant holds wherever it is killed. */
  lemma RecoveryIsARun(t: Terms, outside: (nat, World) -> World, answers: nat -> Answers, at: Outcome, n: nat)
    requires IsStep(t, n) && |at.world.rows| == |t.steps|
    ensures var c := Config(at.world, [], []);
            var events := [Event.Reconcile(n)] + Trace(t, outside, answers, at, RecoveryScript(n));
            var end := Ended(t, outside, answers, at, RecoveryScript(n)).world;
            && EndOf(t, c, events) == Config(end, [], [])
            && (Inv(t, at.world) && Runs(t, c, events) ==> Inv(t, end))
  {
    var c := Config(at.world, [], []);
    var trace := Trace(t, outside, answers, at, RecoveryScript(n));
    var events := [Event.Reconcile(n)] + trace;
    FirstEvent(t, c, Event.Reconcile(n), trace);
    TraceEnds(t, outside, answers, at, RecoveryScript(n));
    NoSendIsCareful(t, outside, answers, at, RecoveryScript(n));
    CarefulCons(t, c, Event.Reconcile(n), trace);
    if Inv(t, at.world) && Runs(t, c, events) {
      assert Good(t, c);
      RunKeeps(t, c, events);
    }
  }
}
