/**
 The schedule of an incremental swap: how each total is split into steps, and who sends first on each.

 Fractions are exact: the probe fraction 0.25 is one quarter, so `total / (count - 1 + 0.25)`
 is `4 * total / (4 * count - 3)`.
 */
module Schedule {
  import opened Collections

  datatype PlanError =
    | TradeTooLarge(requested: int, maxSafe: int, cap: int)
    | NotPositive
    | NoSteps
    | TooSmallToSplit

  datatype Step = Step(lapse: int, xlm: int)

  // ----- Splitting one total --------------------------------------------------

  function Body(total: int, count: int): int
    requires 2 <= count
  {
    4 * total / (4 * count - 3)
  }

  function Probe(total: int, count: int): int
    requires 2 <= count
  {
    Max(Body(total, count) / 4, 1)
  }

  /** How many later steps carry one unit more than the body. */
  function Extra(total: int, count: int): int
    requires 2 <= count
  {
    total - Probe(total, count) - Body(total, count) * (count - 1)
  }

  /** The division facts every later bound rests on: the shortfall never exceeds one unit a step. */
  lemma ShortfallFits(total: int, count: int)
    requires 2 <= count <= total
    ensures Body(total, count) >= 1
    ensures 0 <= Extra(total, count) <= count - 1
  {
    var d := 4 * count - 3;
    var body := Body(total, count);
    assert body * d <= 4 * total < body * d + d;
    assert body * d == 4 * (body * (count - 1)) + body by { Distribute(body, count); }
    assert body >= 1 by {
      if body <= 0 { NonPositiveProduct(body, d); }
    }
    if body < 4 {
      assert Probe(total, count) == 1;
    } else {
      assert Probe(total, count) == body / 4;
    }
  }

  lemma Distribute(body: int, count: int)
    ensures body * (4 * count - 3) == 4 * (body * (count - 1)) + body
  {
  }

  lemma NonPositiveProduct(a: int, d: int)
    requires a <= 0 && d > 0
    ensures a * d <= 0
  {
  }

  /** An opening step, then `extra` steps one unit over the body, then plain body steps. */
  function Layout(opening: int, body: int, extra: nat, plain: nat): (parts: seq<int>)
    ensures |parts| == 1 + extra + plain && parts[0] == opening
    ensures forall i :: 1 <= i < |parts| ==> parts[i] == if i <= extra then body + 1 else body
  {
    [opening] + Repeat(body + 1, extra) + Repeat(body, plain)
  }

  lemma LayoutSum(opening: int, body: int, extra: nat, plain: nat)
    ensures Sum(Layout(opening, body, extra, plain)) == opening + body * (extra + plain) + extra
  {
    var big, small := Repeat(body + 1, extra), Repeat(body, plain);
    SumAppend([opening] + big, small);
    SumAppend([opening], big);
    assert Sum([opening]) == opening;
    RepeatSum(body + 1, extra);
    RepeatSum(body, plain);
    ProductsAdd(body, extra, plain);
  }

  lemma ProductsAdd(body: int, extra: int, plain: int)
    ensures (body + 1) * extra + body * plain == body * (extra + plain) + extra
  {
  }

  /** The amounts one total is split into. */
  function Parts(total: int, count: int): (parts: seq<int>)
    requires 1 <= count <= total
    ensures |parts| == count
  {
    if count == 1 then [total]
    else
      ShortfallFits(total, count);
      Layout(Probe(total, count), Body(total, count), Extra(total, count), count - 1 - Extra(total, count))
  }

  function Repeat(x: int, n: nat): (r: seq<int>)
    ensures |r| == n && forall i :: 0 <= i < n ==> r[i] == x
  {
    if n == 0 then [] else [x] + Repeat(x, n - 1)
  }

  lemma {:induction false} RepeatSum(x: int, n: nat)
    ensures Sum(Repeat(x, n)) == x * n
  {
    if n > 0 {
      RepeatSum(x, n - 1);
    }
  }

  /** A split is exact, opens with the probe, and its later steps differ by at most one unit. */
  lemma PartsExact(total: int, count: int)
    requires 1 <= count <= total
    ensures Sum(Parts(total, count)) == total
    ensures forall i :: 0 <= i < count ==> Parts(total, count)[i] >= 1
    ensures count > 1 ==> Parts(total, count)[0] == Max(Body(total, count) / 4, 1) <= Body(total, count)
    ensures forall i :: 1 <= i < count ==> Parts(total, count)[i] - Body(total, count) in {0, 1}
  {
    if count > 1 {
      ShortfallFits(total, count);
      hide Body;
      var extra := Extra(total, count);
      LayoutSum(Probe(total, count), Body(total, count), extra, count - 1 - extra);
    }
  }

  /** The opening step is a quarter of any later one, to within the rounding of each, and at least one unit. */
  lemma ProbeIsAQuarter(total: int, count: int, i: int)
    requires 2 <= count <= total && 1 <= i < count
    ensures var parts := Parts(total, count);
            && 4 * parts[0] <= Max(parts[i], 4) && parts[i] <= 4 * parts[0] + 4 && 1 <= parts[0] <= parts[i]
  {
    PartsExact(total, count);
    hide Body, Parts;
  }

  /** Adds the same amount to every later step below a bound, one by one. */
  method TopUp(amounts: seq<int>, upTo: int, more: int) returns (raised: seq<int>)
    requires 1 <= upTo <= |amounts|
    ensures |raised| == |amounts|
    ensures forall j :: 0 <= j < |amounts| ==> raised[j] == if 1 <= j < upTo then amounts[j] + more else amounts[j]
  {
    raised := amounts;
    for i := 1 to upTo
      invariant |raised| == |amounts|
      invariant forall j :: 0 <= j < |amounts| ==> raised[j] == if 1 <= j < i then amounts[j] + more else amounts[j]
    {
      raised := raised[i := raised[i] + more];
    }
  }

  /** The split as it is carried out: a list filled with the body, then topped up in two passes. */
  method Split(total: int, count: int) returns (amounts: seq<int>)
    requires 1 <= count <= total
    ensures amounts == Parts(total, count)
  {
    if count == 1 {
      return [total];
    }
    ShortfallFits(total, count);
    var body := 4 * total / (4 * count - 3);
    var probe := Max(body / 4, 1);
    amounts := [probe] + Repeat(body, count - 1);
    EvenSum(probe, body, count - 1);
    var short := total - Sum(amounts);
    assert short == Extra(total, count) && body == Body(total, count) && probe == Probe(total, count);
    hide Body, Probe, Extra, Sum;
    if short > 0 {
      var each, extra := short / (count - 1), short % (count - 1);
      SmallQuotient(short, count - 1);
      amounts := TopUp(amounts, count, each);
      amounts := TopUp(amounts, 1 + extra, 1);
    }
    assert forall j :: 0 <= j < count ==> amounts[j] == Parts(total, count)[j];
  }

  lemma EvenSum(probe: int, body: int, n: nat)
    ensures Sum([probe] + Repeat(body, n)) == probe + body * n
  {
    SumAppend([probe], Repeat(body, n));
    RepeatSum(body, n);
    assert Sum([probe]) == probe;
  }

  lemma SmallQuotient(n: int, d: int)
    requires 0 < n <= d
    ensures if n == d then n / d == 1 && n % d == 0 else n / d == 0 && n % d == n
  {
  }

  // ----- The schedule -----------------------------------------------------------

  function Zip(a: seq<int>, b: seq<int>): (steps: seq<Step>)
    requires |a| == |b|
    ensures |steps| == |a|
    ensures forall i :: 0 <= i < |a| ==> steps[i] == Step(a[i], b[i])
  {
    seq(|a|, i requires 0 <= i < |a| => Step(a[i], b[i]))
  }

  function LapseOf(steps: seq<Step>): seq<int> { seq(|steps|, i requires 0 <= i < |steps| => steps[i].lapse) }

  function XlmOf(steps: seq<Step>): seq<int> { seq(|steps|, i requires 0 <= i < |steps| => steps[i].xlm) }

  predicate Splittable(lapseTotal: int, xlmTotal: int, count: int) {
    1 <= count <= lapseTotal && count <= xlmTotal
  }

  function ScheduleOf(lapseTotal: int, xlmTotal: int, count: int): (steps: seq<Step>)
    requires Splittable(lapseTotal, xlmTotal, count)
    ensures |steps| == count
    ensures forall i :: 0 <= i < count ==> steps[i].lapse >= 1 && steps[i].xlm >= 1
    ensures Sum(LapseOf(steps)) == lapseTotal && Sum(XlmOf(steps)) == xlmTotal
    ensures forall i :: 0 <= i < count ==> steps[i].xlm == Parts(xlmTotal, count)[i]
  {
    PartsExact(lapseTotal, count);
    PartsExact(xlmTotal, count);
    var steps := Zip(Parts(lapseTotal, count), Parts(xlmTotal, count));
    assert LapseOf(steps) == Parts(lapseTotal, count);
    assert XlmOf(steps) == Parts(xlmTotal, count);
    steps
  }

  /** Refuses exactly an empty step count or a total too small to give every step something. */
  method BuildSchedule(lapseTotal: int, xlmTotal: int, count: int) returns (r: Result<seq<Step>, PlanError>)
    ensures r.Success? <==> Splittable(lapseTotal, xlmTotal, count)
    ensures r.Success? ==> r.value == ScheduleOf(lapseTotal, xlmTotal, count)
    ensures r.Failure? ==> r.error == if count < 1 then NoSteps else TooSmallToSplit
  {
    if count < 1 {
      return Failure(NoSteps);
    }
    if lapseTotal < count || xlmTotal < count {
      return Failure(TooSmallToSplit);
    }
    var lapseParts := Split(lapseTotal, count);
    var xlmParts := Split(xlmTotal, count);
    PartsExact(lapseTotal, count);
    PartsExact(xlmTotal, count);
    return Success(Zip(lapseParts, xlmParts));
  }

  // ----- Who moves first ---------------------------------------------------------------

  /** Who sends first on a step, from whether this side opens. */
  predicate MovesFirst(n: int, opens: bool)
    requires n >= 1
  {
    if n % 2 == 1 then opens else !opens
  }

  /** Who opens: the less trusted side, and on equal trust the smaller address. */
  predicate OpeningMover(myTrust: int, peerTrust: int, myAddr: int, peerAddr: int) {
    if myTrust != peerTrust then myTrust > peerTrust else myAddr < peerAddr
  }

  /** Computed from the two ends with the arguments mirrored, exactly one side opens, and exactly one moves first on each step. */
  lemma ExactlyOneMovesFirst(myTrust: int, peerTrust: int, myAddr: int, peerAddr: int, n: int)
    requires myAddr != peerAddr && n >= 1
    ensures MovesFirst(n, OpeningMover(myTrust, peerTrust, myAddr, peerAddr))
            <==> !MovesFirst(n, OpeningMover(peerTrust, myTrust, peerAddr, myAddr))
  {
  }

  /** Who takes the first risk: the side the other trusts less sends first on step one, and the one trusted more answers. */
  lemma LessTrustedMovesFirst(aTrustsB: int, bTrustsA: int, addrOfA: int, addrOfB: int)
    requires bTrustsA < aTrustsB
    ensures MovesFirst(1, OpeningMover(aTrustsB, bTrustsA, addrOfA, addrOfB))
    ensures !MovesFirst(1, OpeningMover(bTrustsA, aTrustsB, addrOfB, addrOfA))
  {
  }

  // ----- Products -------------------------------------------------------------------------

  lemma ScaleUp(x: int, y: int, b: int)
    requires x <= y && b >= 0
    ensures x * b <= y * b
  {
  }

  lemma OneMore(a: int, d: int)
    ensures (a + 1) * d == a * d + d
  {
  }
}
