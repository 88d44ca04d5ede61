/** What an amount costs, and what an amount buys, at a price in stroops. */
module Quotes {
  import Schedule

  const TICKS_PER_LAPSE: int := 100_000_000

  /** What some LAPSE costs, rounded up. */
  function XlmForLapse(ticks: int, price: int): int
    requires price > 0
  {
    -(-ticks * price / TICKS_PER_LAPSE)
  }

  /** The most LAPSE some stroops buy, rounded down. */
  function LapseForXlm(stroops: int, price: int): int
    requires price > 0
  {
    stroops * TICKS_PER_LAPSE / price
  }

  /** A quote can be paid with the stroops it was made for, and nothing above it can. */
  lemma QuoteIsTheMostAffordable(ticks: int, stroops: int, price: int)
    requires price > 0
    ensures ticks <= LapseForXlm(stroops, price) <==> XlmForLapse(ticks, price) <= stroops
  {
    FloorMeets(stroops * TICKS_PER_LAPSE, price, ticks);
    FloorMeets(-ticks * price, TICKS_PER_LAPSE, -stroops);
  }

  lemma FloorMeets(a: int, b: int, q: int)
    requires b > 0
    ensures q <= a / b <==> q * b <= a
  {
    var f := a / b;
    assert f * b <= a < f * b + b;
    if q <= f {
      Schedule.ScaleUp(q, f, b);
    } else {
      Schedule.ScaleUp(f + 1, q, b);
      Schedule.OneMore(f, b);
    }
  }
}
