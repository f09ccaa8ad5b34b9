/** The Lambda variant's fee calculator: $10 an hour, charged per started
    quarter-hour, so $2.50 per quarter. Amounts are integer cents. */
module Billing {
  import opened Ceiling

  const MS_PER_MINUTE := 60000
  const MINUTES_PER_QUARTER := 15
  const QUARTER_MS := MINUTES_PER_QUARTER * MS_PER_MINUTE
  /** $2.50 in cents. */
  const QUARTER_CENTS := 250

  /** Round the duration up to whole minutes, the minutes up to whole
      quarter-hours, and charge each quarter. The two roundings are one
      rounding to quarter-hours, so every fee is a whole number of quarters. */
  function CalculateFee(durationMs: int): (cents: int)
    ensures cents == CeilDiv(durationMs, QUARTER_MS) * QUARTER_CENTS
  {
    var minutes := CeilDiv(durationMs, MS_PER_MINUTE);
    var quarters := CeilDiv(minutes, MINUTES_PER_QUARTER);
    CeilDivNested(durationMs, MS_PER_MINUTE, MINUTES_PER_QUARTER);
    quarters * QUARTER_CENTS
  }

  /** The staircase: k quarters are charged exactly for durations in
      ((k-1) quarter-hours, k quarter-hours]. */
  lemma FeeStaircase(durationMs: int, k: int)
    ensures CalculateFee(durationMs) == k * QUARTER_CENTS
        <==> (k - 1) * QUARTER_MS < durationMs <= k * QUARTER_MS
  {
    CeilDivIs(durationMs, QUARTER_MS, k);
  }

  /** The first two steps of the staircase: $2.50 up to 15 minutes, $5.00 up to 30. */
  lemma FirstTwoQuarters(durationMs: int)
    ensures 0 < durationMs <= 900000 ==> CalculateFee(durationMs) == 250
    ensures 900000 < durationMs <= 1800000 ==> CalculateFee(durationMs) == 500
  {
    FeeStaircase(durationMs, 1);
    FeeStaircase(durationMs, 2);
  }

  /** A zero duration is free, a positive one costs at least a quarter, and no
      non-negative duration has a negative fee. */
  lemma FeeSign(durationMs: int)
    ensures durationMs == 0 ==> CalculateFee(durationMs) == 0
    ensures durationMs >= 0 ==> CalculateFee(durationMs) >= 0
    ensures durationMs > 0 ==> CalculateFee(durationMs) >= QUARTER_CENTS
  {
    var q := CeilDiv(durationMs, QUARTER_MS);
    if durationMs >= 0 && q < 0 {
      MulLe(q, -1, QUARTER_MS);
    }
    if durationMs > 0 && q < 1 {
      MulLe(q, 0, QUARTER_MS);
    }
  }

  /** A longer stay never costs less. */
  lemma FeeMonotone(d1: int, d2: int)
    requires d1 <= d2
    ensures CalculateFee(d1) <= CalculateFee(d2)
  {
    CeilDivMonotone(d1, d2, QUARTER_MS);
  }

  /** Every fee is a whole number of $2.50 quarters. */
  lemma FeeIsWholeQuarters(durationMs: int)
    ensures CalculateFee(durationMs) % QUARTER_CENTS == 0
  {
  }
}
