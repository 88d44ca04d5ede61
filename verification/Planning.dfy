/** Sizing an incremental swap: how many steps a trade needs, and why no step is worth more than the exposure cap. */
module Planning {
  import opened Collections
  import opened Schedule

  const MAX_INCREMENTS: int := 20
  const MIN_INCREMENTS: int := 2
  const MIN_STEP_STROOPS: int := 1000

  datatype Plan = Plan(steps: seq<Step>, count: int, cap: int)

  // ----- Exposure cap --------------------------------------------------------

  /** The cap one side's trust allows. `scaled` stands for the square-root scaling of the stranger cap. */
  function ExposureCap(scaled: int, stake: Option<int>): (cap: int)
    ensures cap >= MIN_STEP_STROOPS
    ensures cap > MIN_STEP_STROOPS ==> cap <= scaled && (stake.Some? ==> cap <= stake.value)
  {
    var limited := if stake.Some? then Min(scaled, Max(stake.value, 0)) else scaled;
    Max(limited, MIN_STEP_STROOPS)
  }

  /** One side's trust of the other, as a scaled cap, and what the other would forfeit where that is known. */
  datatype Regard = Regard(scaled: int, stake: Option<int>)

  function CapOf(r: Regard): int { ExposureCap(r.scaled, r.stake) }

  /** The smaller of what each side's trust of the other allows. */
  function MutualCap(mine: Regard, peers: Regard): (cap: int)
    ensures cap >= MIN_STEP_STROOPS
  {
    Min(CapOf(mine), CapOf(peers))
  }

  /** Never above a stake either side would forfeit, but for the smallest step there is. */
  lemma CapUnderStake(mine: Regard, peers: Regard)
    ensures MutualCap(mine, peers) == MutualCap(peers, mine)
    ensures mine.stake.Some? ==> MutualCap(mine, peers) <= Max(mine.stake.value, MIN_STEP_STROOPS)
    ensures peers.stake.Some? ==> MutualCap(mine, peers) <= Max(peers.stake.value, MIN_STEP_STROOPS)
  {
  }

  /** Exactly the steps allowed: the smallest there is, and any that neither side's trust nor a known stake forbids. */
  lemma CapAllows(mine: Regard, peers: Regard, step: int)
    ensures step <= MutualCap(mine, peers)
            <==> step <= MIN_STEP_STROOPS || (Allowed(mine, step) && Allowed(peers, step))
  {
  }

  predicate Allowed(r: Regard, step: int) { step <= r.scaled && (r.stake.Some? ==> step <= r.stake.value) }

  function MaxSafeTrade(cap: int): int
    requires cap >= 0
  {
    cap * (4 * (MAX_INCREMENTS - 1) + 1) / 4
  }

  // ----- Counting steps -----------------------------------------------------------

  /** ceil(total / cap + 1 - 1/4), never under the minimum. */
  function StepsNeeded(total: int, cap: int): int
    requires cap > 0
  {
    Max(CeilDiv(4 * total + 3 * cap, 4 * cap), MIN_INCREMENTS)
  }

  function CeilDiv(a: int, b: int): int
    requires b > 0
  {
    -((-a) / b)
  }

  /** The least whole number of `b`s that covers `a`. */
  lemma CeilDivCovers(a: int, b: int)
    requires b > 0
    ensures (CeilDiv(a, b) - 1) * b < a <= CeilDiv(a, b) * b
  {
  }

  method IncrementCount(xlmTotal: int, cap: int) returns (r: Result<int, PlanError>)
    requires cap > 0
    ensures xlmTotal <= 0 ==> r == Failure(NotPositive)
    ensures xlmTotal > MaxSafeTrade(cap) && xlmTotal > 0 ==> r == Failure(TradeTooLarge(xlmTotal, MaxSafeTrade(cap), cap))
    ensures 0 < xlmTotal <= MaxSafeTrade(cap) ==> r == Success(StepsNeeded(xlmTotal, cap))
  {
    if xlmTotal <= 0 {
      return Failure(NotPositive);
    }
    var needed := CeilDiv(4 * xlmTotal + 3 * cap, 4 * cap);
    var count := Max(needed, MIN_INCREMENTS);
    CeilingMeetsLimit(xlmTotal, cap);
    if count > MAX_INCREMENTS {
      return Failure(TradeTooLarge(xlmTotal, MaxSafeTrade(cap), cap));
    }
    return Success(count);
  }

  /** The step ceiling is passed exactly by the trades above the reported limit. */
  lemma CeilingMeetsLimit(total: int, cap: int)
    requires cap > 0
    ensures StepsNeeded(total, cap) > MAX_INCREMENTS <==> total > MaxSafeTrade(cap)
  {
    var a, b := 4 * total + 3 * cap, 4 * cap;
    var q := CeilDiv(a, b);
    CeilDivCovers(a, b);
    if q > 20 {
      assert 20 * b <= (q - 1) * b by { ScaleUp(20, q - 1, b); }
    } else {
      assert q * b <= 20 * b by { ScaleUp(q, 20, b); }
    }
  }

  /** A count is enough exactly when the trade spans no more than (count - 1 + 1/4) caps. */
  lemma EnoughSteps(total: int, cap: int, count: int)
    requires cap > 0 && 2 <= count
    ensures StepsNeeded(total, cap) <= count <==> 4 * total <= 4 * (cap * (count - 1)) + cap
  {
    var b := 4 * cap;
    var q := CeilDiv(4 * total + 3 * cap, b);
    CeilDivCovers(4 * total + 3 * cap, b);
    assert count * b == 4 * (cap * (count - 1)) + 4 * cap;
    if q <= count {
      ScaleUp(q, count, b);
    } else {
      ScaleUp(count, q - 1, b);
    }
  }

  lemma BodyAgainstCap(total: int, cap: int, count: int)
    requires cap > 0 && 2 <= count
    ensures 4 * total <= 4 * (cap * (count - 1)) + cap ==> Body(total, count) <= cap
    ensures 4 * total > 4 * (cap * (count - 1)) + cap ==> Body(total, count) >= cap
  {
    var d := 4 * count - 3;
    var body := Body(total, count);
    assert body * d <= 4 * total < body * d + d;
    Distribute(cap, count);
    hide Body;
    if body > cap {
      ScaleUp(cap + 1, body, d);
      OneMore(cap, d);
    }
    if body < cap {
      ScaleUp(body + 1, cap, d);
      OneMore(body, d);
    }
  }

  /** At the first count tried, every step of the split is inside the cap. */
  lemma FirstCountFits(total: int, cap: int, count: int)
    requires cap >= 4 && StepsNeeded(total, cap) <= count <= total
    ensures forall i :: 0 <= i < count ==> Parts(total, count)[i] <= cap
  {
    PartsExact(total, count);
    ShortfallFits(total, count);
    EnoughSteps(total, cap, count);
    BodyAgainstCap(total, cap, count);
    if Body(total, count) == cap {
      assert Extra(total, count) == 0;
    }
  }

  /** Some step of the split into `count` parts is worth more than the cap. */
  ghost predicate BreaksCap(total: int, cap: int, count: int)
    requires 1 <= count <= total
  {
    exists i :: 0 <= i < count && Parts(total, count)[i] > cap
  }

  /** No smaller count of two or more fits: some step of its split is above the cap. */
  lemma SmallerCountBreaksCap(total: int, cap: int, count: int)
    requires cap >= 4 && 2 <= count < StepsNeeded(total, cap) && count <= total
    ensures BreaksCap(total, cap, count)
  {
    PartsExact(total, count);
    ShortfallFits(total, count);
    EnoughSteps(total, cap, count);
    BodyAgainstCap(total, cap, count);
    assert Body(total, count) == cap ==> Extra(total, count) > 0;
    assert Parts(total, count)[1] > cap;
  }

  // ----- Planning -------------------------------------------------------------------

  function MaxXlm(steps: seq<Step>): (m: int)
    requires steps != []
    ensures forall i :: 0 <= i < |steps| ==> steps[i].xlm <= m
    ensures exists i :: 0 <= i < |steps| && steps[i].xlm == m
  {
    if |steps| == 1 then steps[0].xlm
    else
      var rest := MaxXlm(steps[1..]);
      assert forall i :: 1 <= i < |steps| ==> steps[i] == steps[1..][i - 1];
      var k :| 0 <= k < |steps[1..]| && steps[1..][k].xlm == rest;
      assert steps[k + 1].xlm == rest;
      Max(steps[0].xlm, rest)
  }

  /** The planner's search: the first count, from `count` up to the ceiling, whose built schedule fits. */
  function FirstFit(lapseTotal: int, xlmTotal: int, cap: int, count: int): Result<Plan, PlanError>
    requires cap >= 0
    decreases MAX_INCREMENTS - count
  {
    if count > MAX_INCREMENTS then Failure(TradeTooLarge(xlmTotal, MaxSafeTrade(cap), cap))
    else if count < 1 then Failure(NoSteps)
    else if !Splittable(lapseTotal, xlmTotal, count) then Failure(TooSmallToSplit)
    else if MaxXlm(ScheduleOf(lapseTotal, xlmTotal, count)) <= cap then
      Success(Plan(ScheduleOf(lapseTotal, xlmTotal, count), count, cap))
    else FirstFit(lapseTotal, xlmTotal, cap, count + 1)
  }

  function PlanOf(lapseTotal: int, xlmTotal: int, cap: int): Result<Plan, PlanError>
    requires cap > 0
  {
    if xlmTotal <= 0 then Failure(NotPositive)
    else if xlmTotal > MaxSafeTrade(cap) then Failure(TradeTooLarge(xlmTotal, MaxSafeTrade(cap), cap))
    else FirstFit(lapseTotal, xlmTotal, cap, StepsNeeded(xlmTotal, cap))
  }

  method PlanForCap(lapseTotal: int, xlmTotal: int, cap: int) returns (r: Result<Plan, PlanError>)
    requires cap > 0
    ensures r == PlanOf(lapseTotal, xlmTotal, cap)
  {
    hide StepsNeeded, MaxSafeTrade, ScheduleOf, MaxXlm;
    var first := IncrementCount(xlmTotal, cap);
    if first.Failure? {
      return Failure(first.error);
    }
    var count := first.value;
    while count <= MAX_INCREMENTS
      invariant StepsNeeded(xlmTotal, cap) <= count
      invariant FirstFit(lapseTotal, xlmTotal, cap, count) == PlanOf(lapseTotal, xlmTotal, cap)
    {
      var built := BuildSchedule(lapseTotal, xlmTotal, count);
      if built.Failure? {
        return Failure(built.error);
      }
      if MaxXlm(built.value) <= cap {
        return Success(Plan(built.value, count, cap));
      }
      count := count + 1;
    }
    return Failure(TradeTooLarge(xlmTotal, MaxSafeTrade(cap), cap));
  }

  lemma PlanUsesFirstCount(lapseTotal: int, xlmTotal: int, cap: int)
    requires cap >= MIN_STEP_STROOPS && 0 < xlmTotal <= MaxSafeTrade(cap)
    requires Splittable(lapseTotal, xlmTotal, StepsNeeded(xlmTotal, cap))
    ensures var count := StepsNeeded(xlmTotal, cap);
            PlanOf(lapseTotal, xlmTotal, cap) == Success(Plan(ScheduleOf(lapseTotal, xlmTotal, count), count, cap))
  {
    hide Body, Parts, CeilDiv, MaxSafeTrade;
    CeilingMeetsLimit(xlmTotal, cap);
    FirstCountFits(xlmTotal, cap, StepsNeeded(xlmTotal, cap));
    hide StepsNeeded;
  }

  /**
   Planning is exact. A positive trade is refused as too large exactly when it is above the
   reported limit; otherwise, if the totals can give every step something, the plan uses the first
   count tried, and that is the smallest count of two or more whose steps all fit.
   */
  lemma PlanningIsExact(lapseTotal: int, xlmTotal: int, cap: int)
    requires cap >= MIN_STEP_STROOPS && xlmTotal > 0
    ensures PlanOf(lapseTotal, xlmTotal, cap) == Failure(TradeTooLarge(xlmTotal, MaxSafeTrade(cap), cap))
            <==> xlmTotal > MaxSafeTrade(cap)
    ensures xlmTotal <= MaxSafeTrade(cap) ==>
              (PlanOf(lapseTotal, xlmTotal, cap).Success?
               <==> Splittable(lapseTotal, xlmTotal, StepsNeeded(xlmTotal, cap)))
    ensures PlanOf(lapseTotal, xlmTotal, cap).Success? ==>
              var plan := PlanOf(lapseTotal, xlmTotal, cap).value;
              && plan.count == StepsNeeded(xlmTotal, cap) && MIN_INCREMENTS <= plan.count <= MAX_INCREMENTS
              && Splittable(lapseTotal, xlmTotal, plan.count)
              && plan.steps == ScheduleOf(lapseTotal, xlmTotal, plan.count)
              && Sum(LapseOf(plan.steps)) == lapseTotal && Sum(XlmOf(plan.steps)) == xlmTotal
              && (forall i :: 0 <= i < plan.count ==> 1 <= plan.steps[i].xlm <= cap)
              && (forall c :: 2 <= c < plan.count ==> BreaksCap(xlmTotal, cap, c))
  {
    hide Body, Parts, CeilDiv, MaxSafeTrade, ScheduleOf;
    var count := StepsNeeded(xlmTotal, cap);
    CeilingMeetsLimit(xlmTotal, cap);
    if xlmTotal <= MaxSafeTrade(cap) && Splittable(lapseTotal, xlmTotal, count) {
      PlanUsesFirstCount(lapseTotal, xlmTotal, cap);
      FirstCountFits(xlmTotal, cap, count);
      forall c | 2 <= c < count
        ensures BreaksCap(xlmTotal, cap, c)
      {
        SmallerCountBreaksCap(xlmTotal, cap, c);
      }
    }
  }

  /** The steps are the ones planned for these totals and this cap. */
  predicate Planned(steps: seq<Step>, lapseTotal: int, xlmTotal: int, cap: int)
    requires cap > 0
  {
    var planned := PlanOf(lapseTotal, xlmTotal, cap);
    planned.Success? && steps == planned.value.steps
  }

  /** What a planned schedule amounts to. */
  lemma PlannedIs(steps: seq<Step>, lapseTotal: int, xlmTotal: int, cap: int)
    requires cap >= MIN_STEP_STROOPS
    ensures Planned(steps, lapseTotal, xlmTotal, cap) ==>
              && Sum(LapseOf(steps)) == lapseTotal && Sum(XlmOf(steps)) == xlmTotal
              && forall i :: 0 <= i < |steps| ==> 1 <= steps[i].xlm <= cap
  {
    if Planned(steps, lapseTotal, xlmTotal, cap) {
      assert xlmTotal > 0;
      hide PlanOf;
      PlanningIsExact(lapseTotal, xlmTotal, cap);
    }
  }

  // ----- Two sides of one trade ---------------------------------------------------------

  /**
   The taker's check before it opens its own side: it rebuilds the schedule from the count the maker
   signed and measures it against the cap it computes itself, with the two trust values the other
   way round.
   */
  method TakerSchedule(lapseTotal: int, xlmTotal: int, signedCount: int, mine: Regard, makers: Regard)
    returns (r: Option<seq<Step>>)
    ensures r.Some? <==>
              && Splittable(lapseTotal, xlmTotal, signedCount)
              && MaxXlm(ScheduleOf(lapseTotal, xlmTotal, signedCount)) <= MutualCap(mine, makers)
    ensures r.Some? ==> r.value == ScheduleOf(lapseTotal, xlmTotal, signedCount)
  {
    var built := BuildSchedule(lapseTotal, xlmTotal, signedCount);
    if built.Failure? || MaxXlm(built.value) > MutualCap(mine, makers) {
      return None;
    }
    return Some(built.value);
  }

  /**
   What an honest maker plans, the taker accepts: both sides hold the same schedule, and none of its steps
   is worth more than either side would forfeit, but for the smallest step there is.
   */
  lemma MakerPlanPassesTakerCheck(lapseTotal: int, xlmTotal: int, maker: Regard, taker: Regard)
    ensures var planned := PlanOf(lapseTotal, xlmTotal, MutualCap(maker, taker));
            planned.Success? ==>
              && Splittable(lapseTotal, xlmTotal, planned.value.count)
              && planned.value.steps == ScheduleOf(lapseTotal, xlmTotal, planned.value.count)
              && MaxXlm(planned.value.steps) <= MutualCap(taker, maker)
              && (maker.stake.Some? ==> MaxXlm(planned.value.steps) <= Max(maker.stake.value, MIN_STEP_STROOPS))
              && (taker.stake.Some? ==> MaxXlm(planned.value.steps) <= Max(taker.stake.value, MIN_STEP_STROOPS))
  {
    CapUnderStake(maker, taker);
    hide Body, Parts, CeilDiv, MaxSafeTrade, StepsNeeded, ScheduleOf, FirstFit, MutualCap;
    if xlmTotal > 0 {
      PlanningIsExact(lapseTotal, xlmTotal, MutualCap(maker, taker));
    }
  }
}
