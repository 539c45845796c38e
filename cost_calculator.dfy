/** The cost calculator of main.py: rounding, month lengths, days remaining,
    the linear month-end projection and the warning/nominal classifier. */
module CostCalculator {
  import opened Config

  // ---------------------------------------------------------------------------
  // Rounding (round_cost_value)
  // ---------------------------------------------------------------------------

  /** Ten to the power `n`. */
  function Pow10(n: nat): (r: nat)
    ensures r >= 1
  {
    if n == 0 then 1 else 10 * Pow10(n - 1)
  }

  /** The integer nearest to `x`, ties going to the even neighbour. */
  function RoundHalfEven(x: real): (k: int)
    ensures x - 0.5 <= k as real <= x + 0.5
    ensures (k as real == x - 0.5 || k as real == x + 0.5) ==> k % 2 == 0
  {
    var n := x.Floor;
    var f := x - n as real;
    if f < 0.5 then n
    else if f > 0.5 then n + 1
    else if n % 2 == 0 then n
    else n + 1
  }

  /** `x` written in units of `10^-p`. */
  function Scale(x: real, p: nat): real {
    x * Pow10(p) as real
  }

  /** The value of `k` units of `10^-p`. */
  function Unscale(k: int, p: nat): real {
    k as real / Pow10(p) as real
  }

  lemma ScaleUnscale(k: int, p: nat)
    ensures Scale(Unscale(k, p), p) == k as real
  {
  }

  lemma ScaleDifference(a: real, b: real, p: nat)
    ensures Scale(a - b, p) == Scale(a, p) - Scale(b, p)
  {
  }

  lemma ScaleMonotone(a: real, b: real, p: nat)
    requires a <= b
    ensures Scale(a, p) <= Scale(b, p)
  {
    assert (b - a) * Pow10(p) as real >= 0.0;
  }

  lemma UnscaleMonotone(j: int, k: int, p: nat)
    requires j <= k
    ensures Unscale(j, p) <= Unscale(k, p)
  {
    assert (k - j) as real / Pow10(p) as real >= 0.0;
  }

  lemma UnscaleScale(x: real, p: nat)
    ensures Unscale(Scale(x, p).Floor, p) == x <==> Scale(x, p).Floor as real == Scale(x, p)
  {
  }

  /** `x` has at most `p` decimal digits. */
  predicate AtPrecision(x: real, p: nat) {
    Scale(x, p).Floor as real == Scale(x, p)
  }

  /** `round(cost, precision)`: the nearest value with `precision` decimal
      digits, ties to the even last digit; the error is at most half a unit
      of the last digit. */
  function RoundCost(cost: real, precision: nat): (r: real)
    ensures AtPrecision(r, precision)
    ensures -0.5 <= Scale(r - cost, precision) <= 0.5
  {
    var k := RoundHalfEven(Scale(cost, precision));
    ScaleUnscale(k, precision);
    ScaleDifference(Unscale(k, precision), cost, precision);
    Unscale(k, precision)
  }

  /** The rounding rule picks the only integer that satisfies its contract. */
  lemma RoundHalfEvenUnique(x: real, k: int)
    requires x - 0.5 <= k as real <= x + 0.5
    requires (k as real == x - 0.5 || k as real == x + 0.5) ==> k % 2 == 0
    ensures k == RoundHalfEven(x)
  {
  }

  /** Rounding a value that already has `p` digits changes nothing, so
      rounding once at read-out and rounding again would agree. */
  lemma RoundCostFixesRounded(x: real, p: nat)
    requires AtPrecision(x, p)
    ensures RoundCost(x, p) == x
  {
    var y := Scale(x, p);
    RoundHalfEvenUnique(y, y.Floor);
    UnscaleScale(x, p);
  }

  /** Rounding is idempotent. */
  lemma RoundCostIdempotent(x: real, p: nat)
    ensures RoundCost(RoundCost(x, p), p) == RoundCost(x, p)
  {
    RoundCostFixesRounded(RoundCost(x, p), p);
  }

  lemma RoundHalfEvenMonotone(x: real, y: real)
    requires x <= y
    ensures RoundHalfEven(x) <= RoundHalfEven(y)
  {
  }

  /** Rounding never reverses the order of two costs (it may make them equal). */
  lemma RoundCostMonotone(x: real, y: real, p: nat)
    requires x <= y
    ensures RoundCost(x, p) <= RoundCost(y, p)
  {
    ScaleMonotone(x, y, p);
    RoundHalfEvenMonotone(Scale(x, p), Scale(y, p));
    UnscaleMonotone(RoundHalfEven(Scale(x, p)), RoundHalfEven(Scale(y, p)), p);
  }

  /** Rounding 12.3456 at two digits gives 12.35. */
  lemma RoundCostExample()
    ensures RoundCost(12.3456, 2) == 12.35
  {
    assert Pow10(2) == 100;
    assert (1234.56).Floor == 1234;
  }

  // ---------------------------------------------------------------------------
  // Calendar (get_days_in_month, compute_days_remaining_in_present_month)
  // ---------------------------------------------------------------------------

  /** A calendar date; `today` is passed in instead of read from the clock. */
  datatype Date = Date(year: int, month: int, day: int)

  /** The Gregorian leap-year rule of Python's `calendar.isleap`. */
  predicate IsLeap(year: int) {
    year % 4 == 0 && (year % 100 != 0 || year % 400 == 0)
  }

  /** `calendar.monthrange(year, month)[1]`. */
  function DaysInMonth(month: int, year: int): (days: int)
    requires 1 <= month <= 12
    ensures 28 <= days <= 31
    ensures month == 2 ==> (days == 29 <==> IsLeap(year)) && (days == 28 <==> !IsLeap(year))
    ensures month != 2 ==> (days == 30 <==> month == 4 || month == 6 || month == 9 || month == 11)
    ensures month != 2 && month != 4 && month != 6 && month != 9 && month != 11 ==> days == 31
  {
    if month == 2 then (if IsLeap(year) then 29 else 28)
    else if month == 4 || month == 6 || month == 9 || month == 11 then 30
    else 31
  }

  /** A date Python's `date` can hold (years 1 to 9999, a real day of its month). */
  predicate ValidDate(d: Date) {
    1 <= d.year <= 9999 && 1 <= d.month <= 12 && 1 <= d.day <= DaysInMonth(d.month, d.year)
  }

  /** Days in the months 1 to `month` of `year`. */
  function DaysThroughMonth(month: nat, year: int): (days: nat)
    requires month <= 12
  {
    if month == 0 then 0 else DaysThroughMonth(month - 1, year) + DaysInMonth(month, year)
  }

  /** The twelve month lengths add up to the Gregorian year length. */
  lemma YearLength(year: int)
    ensures DaysThroughMonth(12, year) == if IsLeap(year) then 366 else 365
  {
    var feb := DaysInMonth(2, year);
    assert DaysThroughMonth(1, year) == 31;
    assert DaysThroughMonth(2, year) == 31 + feb;
    assert DaysThroughMonth(3, year) == 62 + feb;
    assert DaysThroughMonth(4, year) == 92 + feb;
    assert DaysThroughMonth(5, year) == 123 + feb;
    assert DaysThroughMonth(6, year) == 153 + feb;
    assert DaysThroughMonth(7, year) == 184 + feb;
    assert DaysThroughMonth(8, year) == 215 + feb;
    assert DaysThroughMonth(9, year) == 245 + feb;
    assert DaysThroughMonth(10, year) == 276 + feb;
    assert DaysThroughMonth(11, year) == 306 + feb;
  }

  /** February in leap and common years (including the century rules), and January. */
  lemma DaysInMonthExamples()
    ensures DaysInMonth(2, 2020) == 29 && DaysInMonth(2, 2021) == 28 && DaysInMonth(1, 2020) == 31
    ensures DaysInMonth(2, 1900) == 28 && DaysInMonth(2, 2000) == 29
  {
  }

  /** `days_in_month - today.day`. */
  function DaysRemaining(daysInMonth: int, today: Date): (remaining: int)
    ensures remaining + today.day == daysInMonth
  {
    daysInMonth - today.day
  }

  /** Given the true length of today's month, the days remaining are between
      0 (today is the last day) and 30. */
  lemma DaysRemainingInPresentMonth(today: Date)
    requires ValidDate(today)
    ensures var remaining := DaysRemaining(DaysInMonth(today.month, today.year), today);
            0 <= remaining <= 30 && (remaining == 0 <==> today.day == DaysInMonth(today.month, today.year))
  {
  }

  /** The recorded test: 28 days in the month and today 2020-02-14 leave 14. */
  lemma DaysRemainingExample()
    ensures DaysRemaining(28, Date(2020, 2, 14)) == 14
    ensures DaysRemaining(DaysInMonth(2, 2020), Date(2020, 2, 14)) == 15
  {
  }

  // ---------------------------------------------------------------------------
  // Projection (get_projected_cost)
  // ---------------------------------------------------------------------------

  /** Month-to-date spend plus yesterday's spend for each remaining day. */
  function ProjectedCost(daysRemaining: int, totalPastDay: real, totalPastMonth: real): (projected: real)
    ensures daysRemaining == 0 ==> projected == totalPastMonth
    ensures daysRemaining >= 0 && totalPastDay >= 0.0 ==> projected >= totalPastMonth
  {
    totalPastMonth + daysRemaining as real * totalPastDay
  }

  /** Each further remaining day adds yesterday's spend once. */
  lemma ProjectedCostStep(daysRemaining: int, totalPastDay: real, totalPastMonth: real)
    ensures ProjectedCost(daysRemaining + 1, totalPastDay, totalPastMonth)
         == ProjectedCost(daysRemaining, totalPastDay, totalPastMonth) + totalPastDay
  {
  }

  /** With days remaining, a higher daily spend never lowers the projection. */
  lemma ProjectedCostMonotone(daysRemaining: int, day1: real, day2: real, totalPastMonth: real)
    requires daysRemaining >= 0 && day1 <= day2
    ensures ProjectedCost(daysRemaining, day1, totalPastMonth) <= ProjectedCost(daysRemaining, day2, totalPastMonth)
  {
    assert daysRemaining as real * (day2 - day1) >= 0.0;
    assert daysRemaining as real * day1 <= daysRemaining as real * day2;
  }

  /** 10 days left at 5.00 a day on top of 50.00 project to 100.00. */
  lemma ProjectedCostExample()
    ensures ProjectedCost(10, 5.0, 50.0) == 100.0
  {
  }

  // ---------------------------------------------------------------------------
  // Classification (get_status)
  // ---------------------------------------------------------------------------

  /** The warning condition of `get_status`: a non-zero current cost that
      reaches `past_cost * threshold` and the minimum cost for a warning. */
  predicate WarningCondition(currentCost: real, pastCost: real, threshold: real, s: Settings) {
    currentCost != 0.0 && currentCost >= pastCost * threshold && currentCost >= s.minimumCostForWarning
  }

  /** `get_status`: the warning string when the warning condition holds,
      otherwise the nominal string. */
  function GetStatus(currentCost: real, pastCost: real, threshold: real, s: Settings): (status: string)
    ensures WarningCondition(currentCost, pastCost, threshold, s) ==> status == s.statusWarning
    ensures !WarningCondition(currentCost, pastCost, threshold, s) ==> status == s.statusNominal
    ensures currentCost == 0.0 ==> status == s.statusNominal
  {
    var limit := pastCost * threshold;
    if currentCost != 0.0 && currentCost >= limit && currentCost >= s.minimumCostForWarning then
      s.statusWarning
    else
      s.statusNominal
  }

  /** With distinguishable status strings, the result is the warning status
      exactly when the warning condition holds. */
  lemma GetStatusWarningIff(currentCost: real, pastCost: real, threshold: real, s: Settings)
    requires DistinctStatuses(s)
    ensures GetStatus(currentCost, pastCost, threshold, s) == s.statusWarning
        <==> (currentCost != 0.0 && currentCost >= pastCost * threshold && currentCost >= s.minimumCostForWarning)
  {
  }

  /** The boundary `current == past * threshold` warns once the minimum is met. */
  lemma GetStatusBoundaryInclusive(pastCost: real, threshold: real, s: Settings)
    requires pastCost * threshold != 0.0 && pastCost * threshold >= s.minimumCostForWarning
    ensures GetStatus(pastCost * threshold, pastCost, threshold, s) == s.statusWarning
  {
  }

  /** Four classifications under the default settings. */
  lemma GetStatusExamples()
    ensures GetStatus(0.0, 5.0, 2.0, Defaults) == "NOMINAL"
    ensures GetStatus(20.0, 10.0, 2.0, Defaults) == "WARNING"
    ensures GetStatus(19.99, 10.0, 2.0, Defaults) == "NOMINAL"
    ensures GetStatus(15.0, 1.0, 2.0, Defaults.(minimumCostForWarning := 20.0)) == "NOMINAL"
  {
  }
}
