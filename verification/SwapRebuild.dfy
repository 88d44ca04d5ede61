/**
 When a send can pay a step twice: exactly when it rebuilds over a stored envelope whose nonce was taken
 by a payment that may yet be reorged out.
 */
module SwapRebuild {
  import opened Collections
  import opened Schedule
  import opened SwapModel
  import opened SwapSafety
  import opened SwapPlans
  import opened SwapRuns
  import opened SwapHonest

  // ----- The reorg that applies both ------------------------------------------------------------------

  function Fillers(from: nat, upTo: nat, height: int): (s: seq<Applied>)
    requires from <= upTo
    ensures |s| == upTo - from
    ensures forall i :: 0 <= i < |s| ==> s[i] == Applied(Other(from + i + 1), height)
  {
    seq(upTo - from, i requires 0 <= i < upTo - from => Applied(Other(from + i + 1), height))
  }

  /** The account is rolled back to below the first envelope's nonce; then both are applied. */
  function BothApplied(w: World, e: Envelope, f: Envelope): World
    requires 1 <= e.seqNo <= |w.account| < f.seqNo
  {
    var account := w.account[..e.seqNo - 1] + [Applied(Pay(e), w.tip)]
                   + Fillers(e.seqNo, f.seqNo - 1, w.tip) + [Applied(Pay(f), w.tip)];
    w.(account := account, final := |account|)
  }

  lemma BothCanApply(t: Terms, w: World, e: Envelope, f: Envelope)
    requires AccountFits(t, w) && PoolFits(w) && InboundFits(w) && e in w.released && f in w.released
    requires e.step == f.step && w.final < e.seqNo <= |w.account| < f.seqNo
    ensures Moves(t, w, BothApplied(w, e, f)) && PaysTwice(BothApplied(w, e, f))
  {
    var v := BothApplied(w, e, f);
    assert |v.account| == f.seqNo && v.account[..w.final] == w.account[..w.final];
    assert forall i: nat :: i < e.seqNo - 1 ==> v.account[i] == w.account[i];
    assert v.account[e.seqNo - 1].tx == Pay(e) && v.account[f.seqNo - 1].tx == Pay(f);
    assert PaidAt(v, e.step, e.seqNo - 1) && PaidAt(v, e.step, f.seqNo - 1);
    forall n: nat | OutSettled(t, w, n)
      ensures OutSettled(t, v, n)
    {
      var i: nat :| PaidAt(w, n, i)
        && Depth(t.sendsLapse, w.tip, w.account[i].height) >= RequiredDepth(t, t.sendsLapse);
      assert PaidAt(v, n, i);
    }
  }

  // ----- One send -------------------------------------------------------------------------------------------

  /** Effects leave the chains alone, and what was released stays released. */
  lemma {:induction false} EffectsKeepChains(t: Terms, w: World, fs: seq<Effect>)
    requires AccountFits(t, w) && PoolFits(w) && InboundFits(w)
    ensures var v := ExecAll(w, fs);
            && AccountFits(t, v) && PoolFits(v) && InboundFits(v) && w.released <= v.released
            && v.account == w.account && v.final == w.final && v.tip == w.tip && v.inbound == w.inbound
            && |v.rows| == |w.rows|
    decreases fs
  {
    if fs != [] {
      var v := Exec(w, fs[0]);
      assert forall n: nat, i: nat :: PaidAt(v, n, i) == PaidAt(w, n, i);
      EffectsKeepChains(t, v, fs[1..]);
    }
  }

  lemma BuildReleases(t: Terms, w: World, n: nat, row: Row, a: Answers)
    requires IsStep(t, n) && |w.rows| == |t.steps| && a.unlocked
    ensures var v := ExecAll(w, BuildAndSend(t, w, n, row, a));
            |v.rows| == |w.rows| && FreshEnvelope(t, w, n) in v.released
  {
    var e := FreshEnvelope(t, w, n);
    var intent := row.(envelope := Some(e), txId := Some(e), out := Intent);
    var f, g, h := Save(n, intent), Submit(e, a.sent), Save(n, if a.sent then intent.(out := Submitted) else intent);
    assert BuildAndSend(t, w, n, row, a) == [f] + ([g] + [h]);
    ExecAllAppend(w, [f], [g] + [h]);
    ExecOne(w, f);
    ExecTwo(Exec(w, f), g, h);
  }

  /** The world once a send that gives up a live envelope has been carried out: both may still be applied. */
  lemma ForgettingReleasesBoth(t: Terms, w: World, n: nat, a: Answers)
    requires Inv(t, w) && IsStep(t, n) && ForgetsLive(t, w, n, a) && a.unlocked
    ensures var v := ExecAll(w, EnsureSent(t, w, n, a));
            var (e, f) := (w.rows[n - 1].envelope.value, FreshEnvelope(t, w, n));
            && AccountFits(t, v) && PoolFits(v) && InboundFits(v) && e in v.released && f in v.released
            && v.account == w.account && v.final == w.final && e.step == f.step && |w.account| < f.seqNo
  {
    assert StoredFits(t, w, n);
    var row := w.rows[n - 1];
    var f, g := Submit(row.envelope.value, false), Save(n, row.(out := Dead, envelope := None));
    RebuildShape(t, w, n, a);
    EffectsKeepChains(t, w, EnsureSent(t, w, n, a));
    hide Inv, AccountFits, PoolFits, InboundFits, BuildAndSend;
    var x := Exec(Exec(w, f), g);
    var rest := BuildAndSend(t, x, n, g.row, a);
    assert EnsureSent(t, w, n, a) == [f] + ([g] + rest) == ([f] + [g]) + rest;
    ExecTwo(w, f, g);
    ExecAllAppend(w, [f] + [g], rest);
    BuildReleases(t, x, n, g.row, a);
    assert FreshEnvelope(t, x, n) == FreshEnvelope(t, w, n);
    ReleasedGrows(x, rest);
  }

  lemma {:induction false} ReleasedGrows(w: World, fs: seq<Effect>)
    ensures w.released <= ExecAll(w, fs).released
    decreases fs
  {
    if fs != [] {
      ReleasedGrows(Exec(w, fs[0]), fs[1..]);
    }
  }

  /** A send from an open gate can be followed by a reorg that pays its step twice exactly when it rebuilds over a live envelope. */
  lemma SendPaysTwiceIff(t: Terms, w: World, n: nat, a: Answers)
    requires Inv(t, w) && Gate(t, w, n)
    ensures (exists v :: Moves(t, ExecAll(w, EnsureSent(t, w, n, a)), v) && PaysTwice(v))
            <==> ForgetsLive(t, w, n, a) && a.unlocked
  {
    var x := ExecAll(w, EnsureSent(t, w, n, a));
    if ForgetsLive(t, w, n, a) && a.unlocked {
      ForgettingReleasesBoth(t, w, n, a);
      BothCanApply(t, x, w.rows[n - 1].envelope.value, FreshEnvelope(t, w, n));
    } else if ForgetsLive(t, w, n, a) {
      LockedSendPaysOnce(t, w, n, a);
    } else {
      EnsureSentSafe(t, w, n, a);
      SafeKeepsInv(t, w, EnsureSent(t, w, n, a));
      forall v | Moves(t, x, v)
        ensures !PaysTwice(v)
      {
        MovesKeepInv(t, x, v);
      }
    }
  }

  /** With the wallet locked nothing is built: the envelope is given up, but it is still the only one. */
  lemma LockedSendPaysOnce(t: Terms, w: World, n: nat, a: Answers)
    requires Inv(t, w) && IsStep(t, n) && ForgetsLive(t, w, n, a) && !a.unlocked
    ensures forall v :: Moves(t, ExecAll(w, EnsureSent(t, w, n, a)), v) ==> !PaysTwice(v)
  {
    assert StoredFits(t, w, n);
    var e := w.rows[n - 1].envelope.value;
    var f, g := Submit(e, false), Save(n, w.rows[n - 1].(out := Dead, envelope := None));
    RebuildShape(t, w, n, a);
    assert EnsureSent(t, w, n, a) == [f] + [g];
    ExecTwo(w, f, g);
    var x := Exec(Exec(w, f), g);
    var y := Exec(w, f);
    GuardedKeepsInv(t, w, f);
    forall v | Moves(t, x, v)
      ensures !PaysTwice(v)
    {
      var u := v.(rows := y.rows);
      assert forall m: nat, i: nat :: PaidAt(u, m, i) == PaidAt(v, m, i);
      SettledIgnoresEffects(t, y, g);
      assert forall m: nat :: OutSettled(t, u, m) == OutSettled(t, v, m) && InSettled(t, u, m) == InSettled(t, v, m);
      assert Moves(t, y, u);
      MovesKeepInv(t, y, u);
    }
  }

  // ----- In a run --------------------------------------------------------------------------------------------

  function Carries(k: nat): seq<Event> { seq(k, i => Carry) }

  lemma {:induction false} CarryAll(t: Terms, c: Config)
    requires |c.world.rows| == |t.steps|
    ensures Runs(t, c, Carries(|c.todo|)) && Careful(t, c, Carries(|c.todo|))
    ensures EndOf(t, c, Carries(|c.todo|)) == Config(ExecAll(c.world, c.todo), [], c.script)
    decreases |c.todo|
  {
    var events := Carries(|c.todo|);
    if c.todo != [] {
      assert events[0] == Carry && events[1..] == Carries(|c.todo| - 1);
      CarryAll(t, After(t, c, Carry));
    }
  }

  lemma OneEvent(t: Terms, c: Config, e: Event)
    requires Enabled(t, c, e)
    ensures Runs(t, c, [e]) && EndOf(t, c, [e]) == After(t, c, e)
    ensures Careful(t, c, [e]) <==> !Forgets(t, c, e)
  {
    assert [e][1..] == [];
  }

  /** A configuration about to send. */
  predicate AboutToSend(t: Terms, c: Config) {
    && c.todo == [] && c.script != [] && c.script[0].Send? && IsStep(t, c.script[0].n)
    && |c.world.rows| == |t.steps|
  }

  /** The send is made, and afterwards the run goes on without giving up any other live envelope. */
  ghost predicate GoesOn(t: Terms, c: Config, a: Answers, more: seq<Event>) {
    Runs(t, c, [Next(a)] + more) && Spared(t, After(t, c, Next(a)), more)
  }

  /** The send carried out, and the reorg that then applies both. */
  lemma ForgettingSendThenReorg(t: Terms, w: World, n: nat, a: Answers) returns (v: World)
    requires Inv(t, w) && IsStep(t, n) && ForgetsLive(t, w, n, a) && a.unlocked
    ensures var x := ExecAll(w, EnsureSent(t, w, n, a));
            |x.rows| == |t.steps| && Moves(t, x, v) && Moved(x, v) == v && PaysTwice(v)
  {
    ForgettingReleasesBoth(t, w, n, a);
    var x := ExecAll(w, EnsureSent(t, w, n, a));
    v := BothApplied(x, w.rows[n - 1].envelope.value, FreshEnvelope(t, w, n));
    ExecAllRows(w, EnsureSent(t, w, n, a));
    hide Inv, ForgetsLive, EnsureSent;
    BothCanApply(t, x, w.rows[n - 1].envelope.value, FreshEnvelope(t, w, n));
  }

  /** Making the call about to be made, and carrying all of it out. */
  lemma SendCarried(t: Terms, c: Config, a: Answers)
    requires AboutToSend(t, c)
    ensures var d := After(t, c, Next(a));
            && Enabled(t, c, Next(a)) && d.todo == EnsureSent(t, c.world, c.script[0].n, a) && d.world == c.world
            && Runs(t, d, Carries(|d.todo|)) && Careful(t, d, Carries(|d.todo|))
            && EndOf(t, d, Carries(|d.todo|)) == Config(ExecAll(c.world, d.todo), [], d.script)
  {
    hide EnsureSent;
    CarryAll(t, After(t, c, Next(a)));
  }

  lemma ForgettingRunPaysTwice(t: Terms, c: Config, a: Answers)
    requires Good(t, c) && AboutToSend(t, c) && a.unlocked && ForgetsLive(t, c.world, c.script[0].n, a)
    ensures exists more :: GoesOn(t, c, a, more) && PaysTwice(EndOf(t, c, [Next(a)] + more).world)
  {
    var d := After(t, c, Next(a));
    var v := ForgettingSendThenReorg(t, c.world, c.script[0].n, a);
    SendCarried(t, c, a);
    var e := Config(ExecAll(c.world, d.todo), [], d.script);
    assert Enabled(t, e, Outside(v)) && !Forgets(t, e, Outside(v)) && After(t, e, Outside(v)).world == v;
    hide Good, Enabled, After, Forgets, ForgetsLive, Moves, EnsureSent, PaysTwice, AboutToSend, ExecAll;
    OneEvent(t, c, Next(a));
    OneEvent(t, e, Outside(v));
    var carries := Carries(|d.todo|);
    var more := carries + [Outside(v)];
    RunsAppend(t, d, carries, [Outside(v)]);
    RunsAppend(t, c, [Next(a)], more);
    assert GoesOn(t, c, a, more);
  }

  /**
   Exactly when exactly-once fails. After any such run that is about to send, the run can go on through
   this send, with the wallet unlocked and no other live envelope given up, to a double payment if and
   only if this send rebuilds over a stored envelope whose nonce is not finally spent. An XLM sender's
   stored nonce is final once it is spent, so there it never can.
   */
  lemma RunPaysTwiceIff(t: Terms, c: Config, events: seq<Event>, a: Answers)
    requires AcceptedFresh(t, c) && Runs(t, c, events) && Spared(t, c, events)
    requires AboutToSend(t, EndOf(t, c, events)) && a.unlocked
    ensures var d := EndOf(t, c, events);
            (exists more :: GoesOn(t, d, a, more) && PaysTwice(EndOf(t, d, [Next(a)] + more).world))
            <==> ForgetsLive(t, d.world, d.script[0].n, a)
  {
    var d := EndOf(t, c, events);
    FreshGood(t, c);
    RunInv(t, c, events);
    RunKeeps(t, c, events);
    hide AcceptedFresh;
    if ForgetsLive(t, d.world, d.script[0].n, a) {
      ForgettingRunPaysTwice(t, d, a);
    } else {
      forall more | GoesOn(t, d, a, more)
        ensures !PaysTwice(EndOf(t, d, [Next(a)] + more).world)
      {
        CarefulSendPaysOnce(t, d, a, more);
      }
    }
  }

  lemma CarefulSendPaysOnce(t: Terms, d: Config, a: Answers, more: seq<Event>)
    requires Good(t, d) && AboutToSend(t, d) && !ForgetsLive(t, d.world, d.script[0].n, a) && GoesOn(t, d, a, more)
    ensures !PaysTwice(EndOf(t, d, [Next(a)] + more).world)
  {
    assert ([Next(a)] + more)[1..] == more;
    assert !Forgets(t, d, Next(a)) && Enabled(t, d, Next(a));
    hide Good, Forgets, Enabled, After, AboutToSend, ForgetsLive;
    StepKeeps(t, d, Next(a));
    if !t.sendsLapse {
      XlmIsCareful(t, After(t, d, Next(a)), more);
    }
    RunKeeps(t, After(t, d, Next(a)), more);
    GoodPaysOnce(t, EndOf(t, After(t, d, Next(a)), more));
  }

  lemma GoodPaysOnce(t: Terms, c: Config)
    requires Good(t, c)
    ensures !PaysTwice(c.world)
  {
  }

  // ----- Every trade that sends LAPSE has such a run ------------------------------------------------------------------------------

  /** Reached from `c` by a careful run. */
  ghost predicate Reaches(t: Terms, c: Config, d: Config) {
    exists events :: Runs(t, c, events) && Careful(t, c, events) && EndOf(t, c, events) == d
  }

  lemma ReachNow(t: Terms, c: Config)
    ensures Reaches(t, c, c)
  {
    assert EndOf(t, c, []) == c;
  }

  lemma ReachOn(t: Terms, c: Config, d: Config, events: seq<Event>, e: Config)
    requires Reaches(t, c, d) && Runs(t, d, events) && Careful(t, d, events) && EndOf(t, d, events) == e
    ensures Reaches(t, c, e)
  {
    var before :| Runs(t, c, before) && Careful(t, c, before) && EndOf(t, c, before) == d;
    RunsAppend(t, c, before, events);
  }

  lemma ReachStep(t: Terms, c: Config, d: Config, e: Event)
    requires Reaches(t, c, d) && Enabled(t, d, e) && !Forgets(t, d, e)
    ensures Reaches(t, c, After(t, d, e))
  {
    OneEvent(t, d, e);
    ReachOn(t, c, d, [e], After(t, d, e));
  }

  lemma ReachCarried(t: Terms, c: Config, d: Config)
    requires Reaches(t, c, d) && |d.world.rows| == |t.steps|
    ensures Reaches(t, c, Config(ExecAll(d.world, d.todo), [], d.script))
  {
    CarryAll(t, d);
    ReachOn(t, c, d, Carries(|d.todo|), Config(ExecAll(d.world, d.todo), [], d.script));
  }

  /** A call that gives up nothing, made and carried out. */
  lemma ReachCall(t: Terms, c: Config, w: World, script: seq<Call>, a: Answers)
    requires Reaches(t, c, Config(w, [], script)) && script != [] && IsStep(t, script[0].n) && |w.rows| == |t.steps|
    requires !Forgets(t, Config(w, [], script), Next(a))
    ensures Reaches(t, c, Config(ExecAll(w, CallPlan(t, w, script[0], a)), [],
                                 ScriptAfter(t, w, script[0], script[1..], a)))
  {
    var d := Config(w, [], script);
    ReachStep(t, c, d, Next(a));
    ReachCarried(t, c, After(t, d, Next(a)));
  }

  function FreshRows(t: Terms): (rows: seq<Row>)
    ensures |rows| == |t.steps|
  {
    seq(|t.steps|, i => Row(Pending, None, None, false, false, 0,
                            if i == 0 then t.acceptedHeight + StepBudget(t) else 0))
  }

  /** The peer's payment of step 1, long settled, where the peer opens. */
  function PeersFirst(t: Terms): map<nat, int> { if t.opens then map[] else map[1 := 0] }

  function Chains(t: Terms, account: seq<Applied>, pool: seq<Tx>, released: set<Envelope>, rows: seq<Row>): World {
    World(account, 0, RequiredDepth(t, true), released, pool, PeersFirst(t), rows)
  }

  const READY: Answers := Answers(false, true, true, false)

  /** A pass that has come to the point of sending step 1; `rest` is what follows. */
  function Rest(t: Terms): seq<Call> { if t.opens then [LookInOnceSent(1), Clock(1)] else [Clock(1)] }

  function FirstRow(t: Terms, row: Row): seq<Row>
    requires |t.steps| >= 1
  {
    FreshRows(t)[0 := row]
  }

  /** The row after a look that finds nothing of what it holds. */
  function Unseen(row: Row): Row { if row.txId.None? then row else row.(out := Submitted) }

  /** The row when a pass comes to the send. */
  function AtSend(t: Terms, row: Row): Row {
    Unseen(if t.opens then row else row.(inSeen := true, inSettled := true))
  }

  /** Step 1 is open, and nothing of it is on the chain. */
  ghost predicate Open(t: Terms, w: World) {
    && |t.steps| >= 1 && |w.rows| == |t.steps| && w.inbound == PeersFirst(t) && w.tip == RequiredDepth(t, true)
    && w.rows[0].out != Settled && w.rows[0].completed == 0 && (w.rows[0].inSettled ==> w.rows[0].inSeen)
    && (t.opens ==> !w.rows[0].inSettled)
    && (w.rows[0].txId.Some? ==> Confirmations(t, w, w.rows[0].txId.value).None?)
  }

  lemma LookedIn(t: Terms, w: World)
    requires |t.steps| >= 1 && |w.rows| == |t.steps| && InSettled(t, w, 1) && (w.rows[0].inSettled ==> w.rows[0].inSeen)
    ensures ExecAll(w, CheckInbound(t, w, 1, READY)) == w.(rows := w.rows[0 := w.rows[0].(inSeen := true, inSettled := true)])
  {
    var row := w.rows[0];
    if row.inSettled && row.inSeen {
      assert w.rows[0 := row] == w.rows;
    } else {
      ExecOne(w, Save(1, row.(inSeen := true, inSettled := true)));
    }
  }

  lemma LookedOut(t: Terms, w: World)
    requires |t.steps| >= 1 && |w.rows| == |t.steps| && w.rows[0].completed == 0
    requires w.rows[0].txId.Some? ==> Confirmations(t, w, w.rows[0].txId.value).None?
    ensures ExecAll(w, CheckOutbound(t, w, 1)) == w.(rows := w.rows[0 := Unseen(w.rows[0])])
  {
    var row := w.rows[0];
    if row.txId.None? {
      assert w.rows[0 := row] == w.rows;
    } else {
      assert CheckOutbound(t, w, 1) == [Save(1, row.(out := Submitted))];
      ExecOne(w, Save(1, row.(out := Submitted)));
    }
  }

  lemma ReachLook(t: Terms, c: Config, w: World, rest: seq<Call>)
    requires Reaches(t, c, Config(w, [], [LookOut(1)] + rest))
    requires |t.steps| >= 1 && |w.rows| == |t.steps| && w.rows[0].completed == 0
    requires w.rows[0].txId.Some? ==> Confirmations(t, w, w.rows[0].txId.value).None?
    ensures Reaches(t, c, Config(w.(rows := w.rows[0 := Unseen(w.rows[0])]), [], rest))
  {
    ReachCall(t, c, w, [LookOut(1)] + rest, READY);
    LookedOut(t, w);
    assert ([LookOut(1)] + rest)[1..] == rest;
  }

  /** From idle with step 1 open, a pass comes to the send. */
  lemma PassComesToSend(t: Terms, c: Config, w: World)
    requires Open(t, w) && Reaches(t, c, Config(w, [], []))
    ensures Reaches(t, c, Config(w.(rows := w.rows[0 := AtSend(t, w.rows[0])]), [], [Send(1)] + Rest(t)))
  {
    var d := Config(w, [], []);
    ReachStep(t, c, d, Advance);
    assert FirstOpen(w.rows, 1) == 1;
    if t.opens {
      assert [LookOut(1), Send(1), LookInOnceSent(1), Clock(1)] == [LookOut(1)] + ([Send(1)] + Rest(t));
      ReachLook(t, c, w, [Send(1)] + Rest(t));
    } else {
      var script := [LookIn(1), OwnLegOncePaid(1), Clock(1)];
      ReachCall(t, c, w, script, READY);
      var x := w.(rows := w.rows[0 := w.rows[0].(inSeen := true, inSettled := true)]);
      assert InSettled(t, w, 1);
      LookedIn(t, w);
      assert script[1..] == [OwnLegOncePaid(1), Clock(1)];
      ReachCall(t, c, x, [OwnLegOncePaid(1), Clock(1)], READY);
      assert [OwnLegOncePaid(1), Clock(1)][1..] == [Clock(1)];
      assert [LookOut(1), Send(1)] + [Clock(1)] == [LookOut(1)] + ([Send(1)] + Rest(t));
      assert x.rows[0].txId.Some? ==> Confirmations(t, x, x.rows[0].txId.value) == Confirmations(t, w, x.rows[0].txId.value);
      ReachLook(t, c, x, [Send(1)] + Rest(t));
      assert x.rows[0 := Unseen(x.rows[0])] == w.rows[0 := AtSend(t, w.rows[0])];
    }
  }

  function FirstEnvelope(t: Terms): Envelope
    requires |t.steps| >= 1
  {
    Envelope(1, 1, Amount(t, 1))
  }

  /** The row once the first envelope has gone out. */
  function SentRow(t: Terms): Row
    requires |t.steps| >= 1
  {
    AtSend(t, FreshRows(t)[0]).(envelope := Some(FirstEnvelope(t)), txId := Some(FirstEnvelope(t)), out := Submitted)
  }

  /** The trade just accepted. */
  function Accepted(t: Terms): Config { Config(Chains(t, [], [], {}, FreshRows(t)).(inbound := map[]), [], []) }

  /** The first envelope is out, refused a place by another payment that took its nonce. */
  function NonceTaken(t: Terms): World
    requires |t.steps| >= 1
  {
    Chains(t, [Applied(Other(1), RequiredDepth(t, true))], [], {FirstEnvelope(t)}, FirstRow(t, SentRow(t)))
  }

  lemma AcceptedIsFresh(t: Terms)
    requires TermsOk(t)
    ensures AcceptedFresh(t, Accepted(t))
  {
    assert forall n: nat, i: nat :: !PaidAt(Accepted(t).world, n, i);
    forall n | 1 <= n <= |t.steps|
      ensures FreshRow(t, Accepted(t).world, n)
    {
    }
  }

  /** The world with step 1 open and its row in hand, once a pass has come to the send. */
  function FirstUnsent(t: Terms): World
    requires |t.steps| >= 1
  {
    Chains(t, [], [], {}, FirstRow(t, AtSend(t, FreshRows(t)[0])))
  }

  function FirstSent(t: Terms): World
    requires |t.steps| >= 1
  {
    Chains(t, [], [Pay(FirstEnvelope(t))], {FirstEnvelope(t)}, FirstRow(t, SentRow(t)))
  }

  lemma FirstPassComesToSend(t: Terms)
    requires TermsOk(t) && |t.steps| >= 1
    ensures Reaches(t, Accepted(t), Config(FirstUnsent(t), [], [Send(1)] + Rest(t)))
  {
    var c := Accepted(t);
    var paid := Chains(t, [], [], {}, FreshRows(t));
    ReachNow(t, c);
    assert forall n: nat, i: nat :: !PaidAt(paid, n, i);
    ReachStep(t, c, c, Outside(paid));
    assert Moved(c.world, paid) == paid;
    PassComesToSend(t, c, paid);
    assert FirstUnsent(t) == paid.(rows := paid.rows[0 := AtSend(t, paid.rows[0])]);
  }

  lemma FirstSendIs(t: Terms)
    requires |t.steps| >= 1
    ensures ExecAll(FirstUnsent(t), EnsureSent(t, FirstUnsent(t), 1, READY)) == FirstSent(t)
    ensures !ForgetsLive(t, FirstUnsent(t), 1, READY)
  {
    var w := FirstUnsent(t);
    assert FindPayment(t, w, 1).None? && !HasLiveClaim(w.rows[0]);
    var intent := w.rows[0].(envelope := Some(FirstEnvelope(t)), txId := Some(FirstEnvelope(t)), out := Intent);
    var f, g, h := Save(1, intent), Submit(FirstEnvelope(t), true), Save(1, intent.(out := Submitted));
    assert EnsureSent(t, w, 1, READY) == [f] + ([g] + [h]);
    ExecAllAppend(w, [f], [g] + [h]);
    ExecOne(w, f);
    ExecTwo(Exec(w, f), g, h);
  }

  lemma FirstSendGoesOut(t: Terms)
    requires TermsOk(t) && |t.steps| >= 1
    ensures Reaches(t, Accepted(t), Config(FirstSent(t), [], []))
  {
    var c, script := Accepted(t), [Send(1)] + Rest(t);
    FirstPassComesToSend(t);
    FirstSendIs(t);
    var w, x := FirstUnsent(t), FirstSent(t);
    assert |w.rows| == |x.rows| == |t.steps|;
    hide Reaches, ForgetsLive, EnsureSent, FirstUnsent, FirstSent, Accepted;
    ReachCall(t, c, w, script, READY);
    ReachStep(t, c, Config(x, [], ScriptAfter(t, w, Send(1), script[1..], READY)), Crash);
  }

  /**
   For every trade with a step in which this node sends LAPSE there is a run from acceptance, through passes, a crash and one block,
   that is about to give up a live envelope, and so, by the result above, one that pays step 1 twice.
   */
  lemma SomeRunPaysTwice(t: Terms)
    requires TermsOk(t) && |t.steps| >= 1 && t.sendsLapse
    ensures exists c, events :: AcceptedFresh(t, c) && Runs(t, c, events) && PaysTwice(EndOf(t, c, events).world)
  {
    var c := Accepted(t);
    AcceptedIsFresh(t);
    FirstSendGoesOut(t);
    var x := FirstSent(t);
    var w := NonceTaken(t);
    NonceCanBeTaken(t);
    ReachStep(t, c, Config(x, [], []), Outside(w));
    PassComesToSend(t, c, w);
    var y := w.(rows := w.rows[0 := AtSend(t, w.rows[0])]);
    assert y.rows[0] == SentRow(t);
    assert FindPayment(t, y, 1).None? && ForgetsLive(t, y, 1, READY);
    var d := Config(y, [], [Send(1)] + Rest(t));
    var events :| Runs(t, c, events) && Careful(t, c, events) && EndOf(t, c, events) == d;
    RunPaysTwiceIff(t, c, events, READY);
    var more :| GoesOn(t, d, READY, more) && PaysTwice(EndOf(t, d, [Next(READY)] + more).world);
    RunsAppend(t, c, events, [Next(READY)] + more);
  }

  lemma NonceCanBeTaken(t: Terms)
    requires TermsOk(t) && |t.steps| >= 1 && t.sendsLapse
    ensures Moves(t, FirstSent(t), NonceTaken(t)) && Moved(FirstSent(t), NonceTaken(t)) == NonceTaken(t)
    ensures Open(t, NonceTaken(t))
  {
    var w := NonceTaken(t);
    assert forall n: nat, i: nat :: !PaidAt(w, n, i);
  }
}
