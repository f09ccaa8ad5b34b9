/** The fee and elapsed-minutes arithmetic written out inline in both
    Firestore exit handlers: started 15-minute intervals at $10 an hour,
    and started minutes. Amounts are integer cents. */
module Proration {
  import opened Ceiling
  import Billing

  const INTERVAL_MS := 15 * 60 * 1000
  const MINUTE_MS := 60 * 1000
  /** $10 in cents. */
  const HOURLY_RATE_CENTS := 1000

  /** `ceil(diff / 60000)`: the started minutes of the stay. */
  function TotalMinutes(diffMs: int): (minutes: int)
    ensures (minutes - 1) * MINUTE_MS < diffMs <= minutes * MINUTE_MS
  {
    CeilDiv(diffMs, MINUTE_MS)
  }

  /** `(ceil(diff / interval) * 10) / 4` dollars, in cents; the division by 4
      is exact because 1000 is a multiple of 4. It charges what the Lambda
      variant's `calculateFee` charges for every duration, although one rounds
      once and the other twice, and it is one quarter per started 15 minutes
      of the reported total. */
  function ProratedFee(diffMs: int): (cents: int)
    ensures cents == Billing.CalculateFee(diffMs)
    ensures cents == CeilDiv(TotalMinutes(diffMs), 15) * Billing.QUARTER_CENTS
  {
    var intervals := CeilDiv(diffMs, INTERVAL_MS);
    assert intervals * HOURLY_RATE_CENTS == (intervals * Billing.QUARTER_CENTS) * 4;
    assert Billing.CalculateFee(diffMs) == CeilDiv(TotalMinutes(diffMs), 15) * Billing.QUARTER_CENTS;
    (intervals * HOURLY_RATE_CENTS) / 4
  }

  /** A longer stay never costs less. */
  lemma ProratedFeeMonotone(d1: int, d2: int)
    requires d1 <= d2
    ensures ProratedFee(d1) <= ProratedFee(d2)
    ensures TotalMinutes(d1) <= TotalMinutes(d2)
  {
    Billing.FeeMonotone(d1, d2);
    CeilDivMonotone(d1, d2, MINUTE_MS);
  }

  /** A stay of at most one minute reports one minute and costs one quarter. */
  lemma BriefStay(diffMs: int)
    requires 0 < diffMs <= MINUTE_MS
    ensures TotalMinutes(diffMs) == 1
    ensures ProratedFee(diffMs) == Billing.QUARTER_CENTS
  {
    CeilDivUnique(diffMs, MINUTE_MS, 1);
    CeilDivUnique(diffMs, INTERVAL_MS, 1);
  }

  /** One hour: 60 minutes and four quarters, $10. */
  lemma OneHour()
    ensures TotalMinutes(3600000) == 60
    ensures ProratedFee(3600000) == 1000
  {
    CeilDivUnique(3600000, MINUTE_MS, 60);
    CeilDivUnique(3600000, INTERVAL_MS, 4);
  }

  /** Twenty minutes: 20 minutes and two quarters, $5.00. */
  lemma TwentyMinutes()
    ensures TotalMinutes(1200000) == 20
    ensures ProratedFee(1200000) == 500
  {
    CeilDivUnique(1200000, MINUTE_MS, 20);
    CeilDivUnique(1200000, INTERVAL_MS, 2);
  }
}
