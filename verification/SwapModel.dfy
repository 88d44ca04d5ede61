/**
 One trade as this node's swap engine sees it: the account its payments leave from, the peer's
 payments it can observe, the rows it has written to disk, and the effects of one engine pass.

 Each function of a pass reads the chains as one view and gives a list of effects, each a row save or a
 submission. A crash keeps a prefix of that list. Between any two effects the chain may move and the
 counterparty may do anything.
 */
module SwapModel {
  import opened Collections
  import opened Schedule

  const STEP_TIMEOUT_MULTIPLIER: int := 6
  const MIN_CONFIRM_DEPTH: int := 2
  const FINAL_DEPTH: int := 1_000_000_000

  /** A signed payment for one step. Its identity is its content: the memo's step, the nonce, the amount. */
  datatype Envelope = Envelope(step: nat, seqNo: nat, amount: int)

  /** What can occupy a nonce of this node's account. */
  datatype Tx = Pay(env: Envelope) | Other(otherSeq: nat)

  datatype Applied = Applied(tx: Tx, height: int)

  datatype LegState = Pending | Intent | Submitted | Settled | Dead

  datatype Row = Row(out: LegState, envelope: Option<Envelope>, txId: Option<Envelope>,
                     inSettled: bool, inSeen: bool, completed: int, deadline: int)

  /** What both sides signed, and this node's own settlement floor. */
  datatype Terms = Terms(steps: seq<Step>, sendsLapse: bool, opens: bool,
                         confirmDepth: int, minDepth: int, acceptedHeight: int)

  /**
   `account[i]` is the payment that used nonce i+1, so the account's nonce is its length; the first
   `final` of them can no longer be reorged out. `released` holds every envelope ever handed to a
   submission, whatever that call answered.
   */
  datatype World = World(account: seq<Applied>, final: nat, tip: int, released: set<Envelope>, pool: seq<Tx>,
                         inbound: map<nat, int>, rows: seq<Row>)

  datatype Effect = Save(n: nat, row: Row) | Submit(env: Envelope, ok: bool)

  /** The answers a pass gets from outside: submissions, the wallet, and a mempool copy hiding a confirmed payment. */
  datatype Answers = Answers(resent: bool, sent: bool, unlocked: bool, shadowed: bool)

  // ----- Terms --------------------------------------------------------------------

  predicate TermsOk(t: Terms) {
    forall i :: 0 <= i < |t.steps| ==> t.steps[i].lapse >= 1 && t.steps[i].xlm >= 1
  }

  /** What a fill response must carry to be accepted. */
  predicate SignedTerms(t: Terms) { t.acceptedHeight >= 0 && t.confirmDepth >= MIN_CONFIRM_DEPTH }

  predicate IsStep(t: Terms, n: nat) { 1 <= n <= |t.steps| }

  function Amount(t: Terms, n: nat): int
    requires IsStep(t, n)
  {
    if t.sendsLapse then t.steps[n - 1].lapse else t.steps[n - 1].xlm
  }

  function RequiredDepth(t: Terms, lapse: bool): (d: int)
    ensures d >= 1
  {
    if lapse then Max(Max(t.confirmDepth, MIN_CONFIRM_DEPTH), t.minDepth) else 1
  }

  function StepBudget(t: Terms): int { t.confirmDepth * STEP_TIMEOUT_MULTIPLIER }

  // ----- Reading the chains -----------------------------------------------------------

  /** Stellar is final on inclusion, reported as one large depth. */
  function Depth(lapse: bool, tip: int, height: int): int {
    if lapse then tip - height + 1 else FINAL_DEPTH
  }

  predicate PaidAt(w: World, n: nat, i: nat) {
    i < |w.account| && w.account[i].tx.Pay? && w.account[i].tx.env.step == n
  }

  ghost predicate Paid(w: World, n: nat) { exists i: nat :: PaidAt(w, n, i) }

  ghost predicate OutSettled(t: Terms, w: World, n: nat) {
    exists i: nat :: PaidAt(w, n, i)
      && Depth(t.sendsLapse, w.tip, w.account[i].height) >= RequiredDepth(t, t.sendsLapse)
  }

  predicate InSettled(t: Terms, w: World, n: nat) {
    n in w.inbound && Depth(!t.sendsLapse, w.tip, w.inbound[n]) >= RequiredDepth(t, !t.sendsLapse)
  }

  predicate AppliedOn(w: World, e: Envelope) {
    1 <= e.seqNo <= |w.account| && w.account[e.seqNo - 1].tx == Pay(e)
  }

  /** What this node's mempool shows of its own payments; Stellar has none to show. */
  function Visible(t: Terms, w: World): seq<Tx> { if t.sendsLapse then w.pool else [] }

  /** A mempool copy reads as depth 0, an applied payment as its depth, anything else as unknown. */
  function Confirmations(t: Terms, w: World, e: Envelope): Option<int> {
    if Pay(e) in Visible(t, w) then Some(0)
    else if AppliedOn(w, e) then Some(Depth(t.sendsLapse, w.tip, w.account[e.seqNo - 1].height))
    else None
  }

  function FindInPool(pool: seq<Tx>, n: nat, amount: int): (r: Option<Envelope>)
    ensures r.Some? ==> Pay(r.value) in pool && r.value.step == n && r.value.amount >= amount
  {
    if pool == [] then None
    else if pool[0].Pay? && pool[0].env.step == n && pool[0].env.amount >= amount then Some(pool[0].env)
    else FindInPool(pool[1..], n, amount)
  }

  /** The latest applied payment of a step that meets the agreed amount. */
  function FindOnChain(account: seq<Applied>, n: nat, amount: int): (r: Option<nat>)
    ensures r.Some? ==>
              && r.value < |account| && account[r.value].tx.Pay?
              && account[r.value].tx.env.step == n && account[r.value].tx.env.amount >= amount
    ensures r.None? ==> forall i :: 0 <= i < |account| && account[i].tx.Pay? && account[i].tx.env.step == n
                          ==> account[i].tx.env.amount < amount
  {
    if account == [] then None
    else
      var last := |account| - 1;
      if account[last].tx.Pay? && account[last].tx.env.step == n && account[last].tx.env.amount >= amount
      then Some(last)
      else FindOnChain(account[..last], n, amount)
  }

  datatype Found = Found(env: Envelope, depth: int)

  function FindPayment(t: Terms, w: World, n: nat): Option<Found>
    requires IsStep(t, n)
  {
    var pooled := FindInPool(Visible(t, w), n, Amount(t, n));
    if pooled.Some? then Some(Found(pooled.value, 0))
    else
      var at := FindOnChain(w.account, n, Amount(t, n));
      if at.Some? then
        Some(Found(w.account[at.value].tx.env, Depth(t.sendsLapse, w.tip, w.account[at.value].height)))
      else None
  }

  predicate SequenceConsumed(w: World, e: Envelope) { |w.account| >= e.seqNo }

  function SeqNo(tx: Tx): nat { if tx.Pay? then tx.env.seqNo else tx.otherSeq }

  function PendingNonce(pool: seq<Tx>): nat {
    if pool == [] then 0
    else if SeqNo(pool[0]) > PendingNonce(pool[1..]) then SeqNo(pool[0]) else PendingNonce(pool[1..])
  }

  function NextSeq(w: World): (s: nat)
    ensures s > |w.account|
  {
    Max(|w.account|, PendingNonce(w.pool)) + 1
  }

  // ----- Effects ------------------------------------------------------------------------

  function Exec(w: World, f: Effect): World {
    match f
    case Save(n, row) => if 1 <= n <= |w.rows| then w.(rows := w.rows[n - 1 := row]) else w
    case Submit(e, ok) => w.(released := w.released + {e}, pool := if ok then w.pool + [Pay(e)] else w.pool)
  }

  function ExecAll(w: World, fs: seq<Effect>): World
    decreases fs
  {
    if fs == [] then w else ExecAll(Exec(w, fs[0]), fs[1..])
  }

  lemma {:induction false} ExecAllAppend(w: World, a: seq<Effect>, b: seq<Effect>)
    ensures ExecAll(w, a + b) == ExecAll(ExecAll(w, a), b)
    decreases a
  {
    if a == [] {
      assert a + b == b;
    } else {
      assert (a + b)[1..] == a[1..] + b;
      ExecAllAppend(Exec(w, a[0]), a[1..], b);
    }
  }

  // ----- One pass, function by function -----------------------------------------------------

  function RowOf(w: World, n: nat): Row
    requires 1 <= n <= |w.rows|
  {
    w.rows[n - 1]
  }

  function RecordOutbound(t: Terms, w: World, n: nat, e: Envelope, depth: int): seq<Effect>
    requires 1 <= n <= |w.rows|
  {
    [Save(n, RowOf(w, n).(txId := Some(e), out := if depth >= RequiredDepth(t, t.sendsLapse) then Settled else Submitted))]
  }

  /** Takes back the next step's deadline when it was earned by a completion that no longer holds. */
  function Unpropagate(t: Terms, w: World, n: nat, row: Row): seq<Effect>
    requires 1 <= n <= |w.rows|
  {
    if row.completed == 0 then []
    else
      [Save(n, row.(completed := 0))]
      + if n < |w.rows| && RowOf(w, n + 1).deadline == row.completed + StepBudget(t)
        then [Save(n + 1, RowOf(w, n + 1).(deadline := 0))] else []
  }

  function CheckOutbound(t: Terms, w: World, n: nat): seq<Effect>
    requires 1 <= n <= |w.rows|
  {
    var row := RowOf(w, n);
    if row.txId.None? then []
    else
      var depth := Confirmations(t, w, row.txId.value);
      if depth.None? then
        [Save(n, row.(out := Submitted))] + Unpropagate(t, w, n, row.(out := Submitted))
      else RecordOutbound(t, w, n, row.txId.value, depth.value)
  }

  /** A mempool copy of the peer's payment reads as depth 0, and is looked at first; Stellar has none to show. */
  predicate Shadowed(t: Terms, a: Answers) { !t.sendsLapse && a.shadowed }

  function CheckInbound(t: Terms, w: World, n: nat, a: Answers): seq<Effect>
    requires 1 <= n <= |w.rows|
  {
    var row := RowOf(w, n);
    if row.inSettled && row.inSeen then
      if InSettled(t, w, n) && !Shadowed(t, a) then []
      else [Save(n, row.(inSettled := false))] + Unpropagate(t, w, n, row.(inSettled := false))
    else if Shadowed(t, a) then [Save(n, row.(inSeen := true))]
    else if n !in w.inbound then []
    else if InSettled(t, w, n) then [Save(n, row.(inSeen := true, inSettled := true))]
    else [Save(n, row.(inSeen := true))]
  }

  function FreshEnvelope(t: Terms, w: World, n: nat): Envelope
    requires IsStep(t, n)
  {
    Envelope(n, NextSeq(w), Amount(t, n))
  }

  /** Written down, then sent, then written down again. */
  function BuildAndSend(t: Terms, w: World, n: nat, row: Row, a: Answers): seq<Effect>
    requires IsStep(t, n)
  {
    if !a.unlocked then []
    else
      var e := FreshEnvelope(t, w, n);
      var intent := row.(envelope := Some(e), txId := Some(e), out := Intent);
      [Save(n, intent), Submit(e, a.sent), Save(n, if a.sent then intent.(out := Submitted) else intent)]
  }

  predicate HasLiveClaim(row: Row) {
    row.envelope.Some? && (row.out == Intent || row.out == Submitted)
  }

  /** The row after a re-send: still in play, or given up because its nonce is spent. */
  function AfterResend(w: World, row: Row, a: Answers): Row
    requires row.envelope.Some?
  {
    if a.resent then row.(out := Submitted)
    else if SequenceConsumed(w, row.envelope.value) then row.(out := Dead, envelope := None)
    else row
  }

  /** The stored envelope goes out again; only when it can never apply is another one built. */
  function Resend(t: Terms, w: World, n: nat, row: Row, a: Answers): seq<Effect>
    requires IsStep(t, n) && row.envelope.Some?
  {
    [Submit(row.envelope.value, a.resent)] + [Save(n, AfterResend(w, row, a))]
    + if !a.resent && SequenceConsumed(w, row.envelope.value)
      then BuildAndSend(t, w, n, AfterResend(w, row, a), a) else []
  }

  function EnsureSent(t: Terms, w: World, n: nat, a: Answers): seq<Effect>
    requires IsStep(t, n) && |w.rows| == |t.steps|
  {
    var row := RowOf(w, n);
    if row.out == Settled then []
    else
      var found := FindPayment(t, w, n);
      if found.Some? then RecordOutbound(t, w, n, found.value.env, found.value.depth)
      else if HasLiveClaim(row) then Resend(t, w, n, row, a)
      else BuildAndSend(t, w, n, row, a)
  }

  /** A locked wallet ends the pass where something would have to be built. */
  predicate StopsLocked(t: Terms, w: World, n: nat, a: Answers)
    requires IsStep(t, n) && |w.rows| == |t.steps|
  {
    var row := RowOf(w, n);
    && row.out != Settled && FindPayment(t, w, n).None? && !a.unlocked
    && (HasLiveClaim(row) ==> !a.resent && SequenceConsumed(w, row.envelope.value))
  }

  function UpdateTiming(t: Terms, w: World, n: nat): seq<Effect>
    requires 1 <= n <= |w.rows|
  {
    var row := RowOf(w, n);
    if row.out == Settled && row.inSettled && row.completed == 0 then
      [Save(n, row.(completed := w.tip))]
      + if n < |w.rows| && RowOf(w, n + 1).deadline == 0
        then [Save(n + 1, RowOf(w, n + 1).(deadline := w.tip + StepBudget(t)))] else []
    else []
  }

  /** This node's own leg: look, send if it is not settled, look again. */
  function SendLeg(t: Terms, w: World, n: nat, a: Answers): seq<Effect>
    requires IsStep(t, n) && |w.rows| == |t.steps|
  {
    var c1 := CheckOutbound(t, w, n);
    var w1 := ExecAll(w, c1);
    ExecAllRows(w, c1);
    if RowOf(w1, n).out == Settled then c1
    else
      var s := EnsureSent(t, w1, n, a);
      var w2 := ExecAll(w1, s);
      ExecAllRows(w1, s);
      c1 + s + if StopsLocked(t, w1, n, a) then [] else CheckOutbound(t, w2, n)
  }

  lemma {:induction false} ExecAllRows(w: World, fs: seq<Effect>)
    ensures |ExecAll(w, fs).rows| == |w.rows|
    decreases fs
  {
    if fs != [] {
      ExecAllRows(Exec(w, fs[0]), fs[1..]);
    }
  }

  /** One step, moved as far as this pass can: the first mover sends then watches, the second watches then sends. */
  function AdvanceStep(t: Terms, w: World, n: nat, a: Answers): seq<Effect>
    requires IsStep(t, n) && |w.rows| == |t.steps|
  {
    if MovesFirst(n, t.opens) then
      var s := SendLeg(t, w, n, a);
      var w1 := ExecAll(w, s);
      ExecAllRows(w, s);
      var i := if RowOf(w1, n).out == Settled then CheckInbound(t, w1, n, a) else [];
      var w2 := ExecAll(w1, i);
      ExecAllRows(w1, i);
      s + i + UpdateTiming(t, w2, n)
    else
      var i := CheckInbound(t, w, n, a);
      var w1 := ExecAll(w, i);
      ExecAllRows(w, i);
      var s := if RowOf(w1, n).inSettled then SendLeg(t, w1, n, a) else [];
      var w2 := ExecAll(w1, s);
      ExecAllRows(w1, s);
      i + s + UpdateTiming(t, w2, n)
  }

  predicate StepDone(rows: seq<Row>, n: nat)
    requires 1 <= n <= |rows|
  {
    rows[n - 1].out == Settled && rows[n - 1].inSettled
  }

  /** The first step whose row is not settled both ways, or 0 when there is none. */
  function FirstOpen(rows: seq<Row>, from: nat): (n: nat)
    requires 1 <= from <= |rows| + 1
    ensures n == 0 || from <= n <= |rows|
    ensures n != 0 ==> !StepDone(rows, n) && forall m :: from <= m < n ==> StepDone(rows, m)
    ensures n == 0 ==> forall m :: from <= m <= |rows| ==> StepDone(rows, m)
    decreases |rows| - from
  {
    if from > |rows| then 0
    else if StepDone(rows, from) then FirstOpen(rows, from + 1)
    else from
  }

  /** A whole pass over the trade, where the chains stand still throughout. */
  function AdvancePlan(t: Terms, w: World, a: Answers): seq<Effect>
    requires |w.rows| == |t.steps|
  {
    var n := FirstOpen(w.rows, 1);
    if n == 0 then [] else AdvanceStep(t, w, n, a)
  }

  /** The startup pass over one step: believe the chains, send nothing. */
  function ReconcileStep(t: Terms, w: World, n: nat, a: Answers): seq<Effect>
    requires IsStep(t, n) && |w.rows| == |t.steps|
  {
    var c := CheckOutbound(t, w, n);
    var w1 := ExecAll(w, c);
    ExecAllRows(w, c);
    var found := FindPayment(t, w1, n);
    var r := if RowOf(w1, n).txId.None? && found.Some?
             then RecordOutbound(t, w1, n, found.value.env, found.value.depth) else [];
    var w2 := ExecAll(w1, r);
    ExecAllRows(w1, r);
    c + r + CheckInbound(t, w2, n, a)
  }
}
