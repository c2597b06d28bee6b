/**
 * The expiry model: a symbolic term of 12, 18 or 24 months, its length in seconds, and the
 * expiry date it gives from a reference timestamp, moved to a day boundary.
 * Both crates declare the same `Expiry` enum with the same `to_seconds` and `from_i64`.
 */
module Expiry {
  import opened Common
  import opened Errors

  datatype Term = TwelveMonths | EighteenMonths | TwentyFourMonths

  const SECONDS_PER_DAY: int := 24 * 60 * 60
  /** One twelfth of a 365-day year. */
  const SECONDS_PER_MONTH: int := 2628000

  /** The number of months a term stands for. */
  function Months(t: Term): nat
  {
    match t
    case TwelveMonths => 12
    case EighteenMonths => 18
    case TwentyFourMonths => 24
  }

  /** `Expiry::to_seconds`. */
  function ToSeconds(t: Term): (s: i64)
    ensures s == Months(t) * SECONDS_PER_MONTH
    ensures 0 < s <= 2 * 365 * SECONDS_PER_DAY
  {
    match t
    case TwelveMonths => 31536000
    case EighteenMonths => 47304000
    case TwentyFourMonths => 63072000
  }

  /** `Expiry::from_i64`: the term for a number of months. */
  function FromI64(months: i64): (r: Result<Term, ProgramError>)
    ensures r.Ok? <==> months == 12 || months == 18 || months == 24
    ensures r.Ok? ==> Months(r.value) == months
    ensures r.Err? ==> r.error == InvalidArgument
  {
    match months
    case 12 => Ok(TwelveMonths)
    case 18 => Ok(EighteenMonths)
    case 24 => Ok(TwentyFourMonths)
    case _ => Err(InvalidArgument)
  }

  /**
   * `Expiry::to_expiry_date(ts)`: `ts + to_seconds()` (two's-complement `i64` addition),
   * divided by a day with Rust's truncating `/`, times a day. Always `Some`.
   */
  function ToExpiryDate(t: Term, ts: i64): (r: Option<i64>)
    ensures r.Some? && r.value % SECONDS_PER_DAY == 0
  {
    var expiryTimestamp := WrapI64(ts + ToSeconds(t));
    var days := TruncDiv(expiryTimestamp, SECONDS_PER_DAY);
    Some(days * SECONDS_PER_DAY)
  }

  /** A term is recovered from its number of months. */
  lemma FromI64OfMonths(t: Term)
    ensures FromI64(Months(t)) == Ok(t)
  {
  }

  /** `to_seconds` of the accepted input `m` is `m` times the average month. */
  lemma FromI64ToSeconds(months: i64)
    requires FromI64(months).Ok?
    ensures ToSeconds(FromI64(months).value) == months * SECONDS_PER_MONTH
  {
  }

  /**
   * When the sum does not overflow, the expiry date is the start of the day the sum falls in
   * for a non-negative sum, and the start of the following day for a negative one
   * (truncation rounds toward zero).
   */
  lemma ExpiryDateBounds(t: Term, ts: i64)
    requires ts + ToSeconds(t) <= I64_MAX
    ensures var sum, r := ts + ToSeconds(t), ToExpiryDate(t, ts).value;
            (sum >= 0 ==> r <= sum < r + SECONDS_PER_DAY) &&
            (sum < 0 ==> r - SECONDS_PER_DAY < sum <= r)
  {
  }

  /** Later reference timestamps never give an earlier expiry date (non-negative, non-overflowing sums). */
  lemma {:induction false} ExpiryDateMonotone(t: Term, ts1: i64, ts2: i64)
    requires 0 <= ts1 + ToSeconds(t) && ts1 <= ts2 && ts2 + ToSeconds(t) <= I64_MAX
    ensures ToExpiryDate(t, ts1).value <= ToExpiryDate(t, ts2).value
  {
    var s1, s2 := ts1 + ToSeconds(t), ts2 + ToSeconds(t);
    assert WrapI64(s1) == s1 && WrapI64(s2) == s2;
    assert TruncDiv(s1, SECONDS_PER_DAY) == s1 / SECONDS_PER_DAY;
    assert TruncDiv(s2, SECONDS_PER_DAY) == s2 / SECONDS_PER_DAY;
    DayIndexMonotone(s1, s2);
  }

  lemma DayIndexMonotone(a: nat, b: nat)
    requires a <= b
    ensures (a / SECONDS_PER_DAY) * SECONDS_PER_DAY <= (b / SECONDS_PER_DAY) * SECONDS_PER_DAY
  {
  }

  /** Two reference timestamps in the same day give the same expiry date. */
  lemma {:induction false} ExpiryDateSameDay(t: Term, ts1: i64, ts2: i64)
    requires 0 <= ts1 + ToSeconds(t) <= I64_MAX && 0 <= ts2 + ToSeconds(t) <= I64_MAX
    requires (ts1 + ToSeconds(t)) / SECONDS_PER_DAY == (ts2 + ToSeconds(t)) / SECONDS_PER_DAY
    ensures ToExpiryDate(t, ts1) == ToExpiryDate(t, ts2)
  {
    var s1, s2 := ts1 + ToSeconds(t), ts2 + ToSeconds(t);
    assert WrapI64(s1) == s1 && WrapI64(s2) == s2;
    assert TruncDiv(s1, SECONDS_PER_DAY) == s1 / SECONDS_PER_DAY;
    assert TruncDiv(s2, SECONDS_PER_DAY) == s2 / SECONDS_PER_DAY;
  }
}
