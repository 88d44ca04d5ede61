/** The turns two honest sides take are runs of the engine, call by call, as any other. */
module HonestRuns {
  import opened Collections
  import opened Schedule
  import opened SwapModel
  import opened SwapSafety
  import opened SwapPlans
  import opened SwapRuns
  import opened SwapHonest
  import opened SwapRebuild
  import opened HonestTrade

  lemma FinalForgetsNothing(t: Terms, w: World, n: nat, a: Answers)
    requires IsStep(t, n) && |w.rows| == |t.steps| && w.final == |w.account|
    ensures !ForgetsLive(t, w, n, a)
  {
  }

  /** A call that is not a send, made where the chains stand still. */
  lemma StillCallReaches(t: Terms, c: Config, w: World, call: Call, rest: seq<Call>, a: Answers)
    requires Reaches(t, c, Config(w, [], [call] + rest)) && IsStep(t, call.n) && |w.rows| == |t.steps|
    requires w.final == |w.account|
    ensures Reaches(t, c, Config(ExecAll(w, CallPlan(t, w, call, a)), [], ScriptAfter(t, w, call, rest, a)))
    ensures |ExecAll(w, CallPlan(t, w, call, a)).rows| == |t.steps|
    ensures ExecAll(w, CallPlan(t, w, call, a)).final == |ExecAll(w, CallPlan(t, w, call, a)).account|
  {
    FinalForgetsNothing(t, w, call.n, a);
    assert ([call] + rest)[1..] == rest;
    hide CallPlan, ScriptAfter, Reaches, ForgetsLive;
    ReachCall(t, c, w, [call] + rest, a);
    ExecAllRows(w, CallPlan(t, w, call, a));
    EffectsLeaveChains(w, CallPlan(t, w, call, a));
  }

  lemma {:induction false} EffectsLeaveChains(w: World, fs: seq<Effect>)
    ensures ExecAll(w, fs).account == w.account && ExecAll(w, fs).final == w.final
    decreases fs
  {
    if fs != [] {
      EffectsLeaveChains(Exec(w, fs[0]), fs[1..]);
    }
  }

  /** Looking, sending and looking again, with an unlocked wallet. */
  lemma StillLegReaches(t: Terms, c: Config, w: World, n: nat, rest: seq<Call>, a: Answers)
    requires Reaches(t, c, Config(w, [], [LookOut(n)] + ([Send(n)] + rest)))
    requires IsStep(t, n) && |w.rows| == |t.steps| && w.final == |w.account| && a.unlocked
    ensures var v := ExecAll(w, SendLeg(t, w, n, a));
            Reaches(t, c, Config(v, [], rest)) && |v.rows| == |t.steps| && v.final == |v.account|
  {
    hide Reaches;
    StillCallReaches(t, c, w, LookOut(n), [Send(n)] + rest, a);
    var w1 := ExecAll(w, CheckOutbound(t, w, n));
    StillCallReaches(t, c, w1, Send(n), rest, a);
    var w2 := ExecAll(w1, EnsureSent(t, w1, n, a));
    SendLegUnfolds(t, w, n, a);
    if w1.rows[n - 1].out == Settled {
      assert EnsureSent(t, w1, n, a) == [];
    } else {
      StillCallReaches(t, c, w2, LookOut(n), rest, a);
    }
  }

  /** A whole pass where the chains stand still leaves what its plan leaves. */
  lemma StillPassReaches(t: Terms, c: Config, w: World, a: Answers)
    requires Reaches(t, c, Config(w, [], [])) && |w.rows| == |t.steps| && w.final == |w.account| && a.unlocked
    ensures Reaches(t, c, Config(ExecAll(w, AdvancePlan(t, w, a)), [], []))
  {
    var n := FirstOpen(w.rows, 1);
    if n != 0 {
      hide Reaches;
      ReachStep(t, c, Config(w, [], []), Advance);
      AdvanceUnfolds(t, w, n, a);
      if MovesFirst(n, t.opens) {
        StillFirstReaches(t, c, w, n, a);
      } else {
        StillSecondReaches(t, c, w, n, a);
      }
    }
  }

  lemma StillFirstReaches(t: Terms, c: Config, w: World, n: nat, a: Answers)
    requires Reaches(t, c, Config(w, [], [LookOut(n), Send(n), LookInOnceSent(n), Clock(n)]))
    requires IsStep(t, n) && |w.rows| == |t.steps| && w.final == |w.account| && a.unlocked && MovesFirst(n, t.opens)
    ensures Reaches(t, c, Config(ExecAll(w, AdvanceStep(t, w, n, a)), [], []))
  {
    var rest := [LookInOnceSent(n)] + [Clock(n)];
    assert [LookOut(n), Send(n), LookInOnceSent(n), Clock(n)] == [LookOut(n)] + ([Send(n)] + rest);
    AdvanceUnfolds(t, w, n, a);
    hide Reaches, SendLeg, CheckInbound, UpdateTiming;
    StillLegReaches(t, c, w, n, rest, a);
    var w1 := ExecAll(w, SendLeg(t, w, n, a));
    StillCallReaches(t, c, w1, LookInOnceSent(n), [Clock(n)], a);
    var w2 := if w1.rows[n - 1].out == Settled then ExecAll(w1, CheckInbound(t, w1, n, a)) else w1;
    assert [Clock(n)] + [] == [Clock(n)];
    StillCallReaches(t, c, w2, Clock(n), [], a);
  }

  lemma StillSecondReaches(t: Terms, c: Config, w: World, n: nat, a: Answers)
    requires Reaches(t, c, Config(w, [], [LookIn(n), OwnLegOncePaid(n), Clock(n)]))
    requires IsStep(t, n) && |w.rows| == |t.steps| && w.final == |w.account| && a.unlocked && !MovesFirst(n, t.opens)
    ensures Reaches(t, c, Config(ExecAll(w, AdvanceStep(t, w, n, a)), [], []))
  {
    assert [LookIn(n), OwnLegOncePaid(n), Clock(n)] == [LookIn(n)] + ([OwnLegOncePaid(n)] + [Clock(n)]);
    AdvanceUnfolds(t, w, n, a);
    hide Reaches, SendLeg, CheckInbound, UpdateTiming;
    StillCallReaches(t, c, w, LookIn(n), [OwnLegOncePaid(n)] + [Clock(n)], a);
    var w1 := ExecAll(w, CheckInbound(t, w, n, a));
    StillCallReaches(t, c, w1, OwnLegOncePaid(n), [Clock(n)], a);
    var w2 := w1;
    if w1.rows[n - 1].inSettled {
      w2 := ExecAll(w1, SendLeg(t, w1, n, a));
      assert [LookOut(n), Send(n)] + [Clock(n)] == [LookOut(n)] + ([Send(n)] + [Clock(n)]);
      StillLegReaches(t, c, w1, n, [Clock(n)], a);
    }
    assert [Clock(n)] + [] == [Clock(n)];
    StillCallReaches(t, c, w2, Clock(n), [], a);
  }

  /** A turn, and the settling after it, is a careful run of the side whose turn it is; the other side's is the settling alone. */
  lemma TurnIsARun(s: Terms, t: Terms, p: Pair, q: Pair)
    requires JointOk(s, t, p) && TurnOf(s, t, p, q)
    ensures Reaches(s, Config(p.a, [], []), Config(q.a, [], []))
    ensures Reaches(t, Config(p.b, [], []), Config(q.b, [], []))
  {
    var c, d := Config(p.a, [], []), Config(p.b, [], []);
    ReachNow(s, c);
    ReachNow(t, d);
    var n, v := FirstOpen(p.a.rows, 1), ExecAll(p.a, FairPlan(s, p.a));
    hide Reaches;
    if n != 0 {
      StillPassReaches(s, c, p.a, FairAnswers(p.a, n));
    }
    ExecAllRows(p.a, FairPlan(s, p.a));
    assert Moved(v, q.a) == q.a && Moved(p.b, q.b) == q.b;
    ReachStep(s, c, Config(v, [], []), Outside(q.a));
    ReachStep(t, d, Config(p.b, [], []), Outside(q.b));
  }

  lemma ReachThrough(t: Terms, c: Config, d: Config, e: Config)
    requires Reaches(t, c, d) && Reaches(t, d, e)
    ensures Reaches(t, c, e)
  {
    var events :| Runs(t, d, events) && Careful(t, d, events) && EndOf(t, d, events) == e;
    ReachOn(t, c, d, events, e);
  }

  /** Honest trades are runs: whatever the order of turns, each side's part of it is a careful run of its engine. */
  lemma {:induction false} TurnsAreRuns(s: Terms, t: Terms, states: seq<Pair>, order: seq<bool>, j: nat)
    requires Follows(s, t, states, order) && JointOk(s, t, states[0]) && j < |states|
    ensures JointOk(s, t, states[j])
    ensures Reaches(s, Config(states[0].a, [], []), Config(states[j].a, [], []))
    ensures Reaches(t, Config(states[0].b, [], []), Config(states[j].b, [], []))
  {
    hide JointOk, TurnBy, Reaches;
    if j == 0 {
      ReachNow(s, Config(states[0].a, [], []));
      ReachNow(t, Config(states[0].b, [], []));
    } else {
      TurnsAreRuns(s, t, states, order, j - 1);
      var p, q := states[j - 1], states[j - 1 + 1];
      assert TurnBy(s, t, p, q, order[j - 1]);
      NothingLost(s, t, states, order, j - 1, j);
      EitherTurnIsARun(s, t, p, q, order[j - 1]);
      ReachThrough(s, Config(states[0].a, [], []), Config(p.a, [], []), Config(q.a, [], []));
      ReachThrough(t, Config(states[0].b, [], []), Config(p.b, [], []), Config(q.b, [], []));
    }
  }

  lemma EitherTurnIsARun(s: Terms, t: Terms, p: Pair, q: Pair, first: bool)
    requires JointOk(s, t, p) && Sized(s, t, p) && TurnBy(s, t, p, q, first)
    ensures Reaches(s, Config(p.a, [], []), Config(q.a, [], []))
    ensures Reaches(t, Config(p.b, [], []), Config(q.b, [], []))
  {
    hide Reaches, TurnOf;
    if first {
      TurnIsARun(s, t, p, q);
    } else {
      SwappedIsJoint(s, t, p);
      TurnIsARun(t, s, Swapped(p), Swapped(q));
    }
  }
}
