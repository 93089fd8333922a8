/** The two helper functions of the calculator: the estimate of how long a blood
    alcohol concentration (per mille) takes to fall to a limit at a flat hourly
    elimination rate, as a band of hours around a central value, and the split of
    decimal hours into whole hours and whole minutes used to display it. */
module TimeToLimit {
  import opened Numerics

  /** The only failure of the estimator: Python raises ZeroDivisionError when the
      concentration is above the limit and the hourly rate is zero. */
  datatype EstimateError = DivisionByZero

  datatype Result<T> = Ok(value: T) | Err(error: EstimateError)

  /** A band of hours: `lower` is the optimistic end, `upper` the pessimistic one. */
  datatype TimeRange = TimeRange(lower: real, upper: real)

  /** The margin the estimator uses when the caller gives none. */
  const DefaultMargin: real := 0.075

  /** Hours needed to eliminate the excess over the limit at `ratePerHour`. */
  function CentralEstimate(bac: real, limit: real, ratePerHour: real): real
    requires ratePerHour != 0.0
  {
    (bac - limit) / ratePerHour
  }

  /** `calcola_tempo_per_limite`: no wait at all when the concentration is already at or
      below the limit, otherwise the central estimate widened by `margin` on each side,
      with the lower end clamped at zero. */
  function EstimateTimeToLimit(bac: real, limit: real, ratePerHour: real, margin: real): (r: Result<TimeRange>)
    ensures bac <= limit ==> r == Ok(TimeRange(0.0, 0.0))
    ensures r.Err? <==> limit < bac && ratePerHour == 0.0
    ensures r.Ok? ==> 0.0 <= r.value.lower
  {
    if bac <= limit then Ok(TimeRange(0.0, 0.0))
    else if ratePerHour == 0.0 then Err(DivisionByZero)
    else Ok(WidenedBand(CentralEstimate(bac, limit, ratePerHour), margin))
  }

  /** The central estimate widened by `margin` on each side, the lower end clamped at zero. */
  function WidenedBand(hours: real, margin: real): TimeRange
  {
    TimeRange(AtLeastZero(Scale(hours, 1.0 - margin)), Scale(hours, 1.0 + margin))
  }

  /** A number of hours multiplied by a widening factor: plain `hours * factor`. It is
      a function of its own so that the lemmas below can reason about the product as
      one term; with the product written inline beside `AtLeastZero`, the solver's
      nonlinear arithmetic proved the band's monotonicity on some random seeds only. */
  function Scale(hours: real, factor: real): real
  {
    hours * factor
  }

  /** Above the limit, with a positive rate and a non-negative margin, the band is
      ordered, starts at or after zero and ends strictly after zero. */
  lemma BandOrdered(bac: real, limit: real, ratePerHour: real, margin: real)
    requires limit < bac && 0.0 < ratePerHour && 0.0 <= margin
    ensures EstimateTimeToLimit(bac, limit, ratePerHour, margin).Ok?
    ensures var band := EstimateTimeToLimit(bac, limit, ratePerHour, margin).value;
      0.0 <= band.lower <= band.upper && 0.0 < band.upper
  {
    var c := CentralEstimate(bac, limit, ratePerHour);
    CentralEstimatePositive(bac, limit, ratePerHour);
    ScaleAroundCentre(c, margin);
  }

  /** Above the limit, with a positive rate and a non-negative margin, the central
      estimate lies inside the band, and the band collapses onto it exactly when the
      margin is zero. */
  lemma BandBracketsCentre(bac: real, limit: real, ratePerHour: real, margin: real)
    requires limit < bac && 0.0 < ratePerHour && 0.0 <= margin
    ensures EstimateTimeToLimit(bac, limit, ratePerHour, margin).Ok?
    ensures var band := EstimateTimeToLimit(bac, limit, ratePerHour, margin).value;
      var c := CentralEstimate(bac, limit, ratePerHour);
      band.lower <= c <= band.upper &&
      (band.lower == band.upper <==> margin == 0.0) &&
      (margin == 0.0 ==> band.lower == c == band.upper)
  {
    var c := CentralEstimate(bac, limit, ratePerHour);
    CentralEstimatePositive(bac, limit, ratePerHour);
    ScaleAroundCentre(c, margin);
  }

  /** For a margin in [0, 1] the band reaches exactly `margin` central estimates
      below and above the central estimate: the ends are `c * (1 - margin)` and
      `c * (1 + margin)`. */
  lemma BandSymmetric(bac: real, limit: real, ratePerHour: real, margin: real)
    requires limit < bac && 0.0 < ratePerHour && 0.0 <= margin <= 1.0
    ensures EstimateTimeToLimit(bac, limit, ratePerHour, margin).Ok?
    ensures var band := EstimateTimeToLimit(bac, limit, ratePerHour, margin).value;
      var c := CentralEstimate(bac, limit, ratePerHour);
      band.upper - c == margin * c && c - band.lower == margin * c
  {
    var c := CentralEstimate(bac, limit, ratePerHour);
    CentralEstimatePositive(bac, limit, ratePerHour);
    ScaleAroundCentre(c, margin);
    ScaleMonotone(0.0, c, 1.0 - margin);
  }

  /** The page's defaults on a concentration of 0.6 per mille and a limit of 0.4: a
      central estimate of 4/3 hours, widened to about 1.233 and 1.433 hours. */
  lemma WorkedExample()
    ensures EstimateTimeToLimit(0.6, 0.4, 0.15, DefaultMargin) == Ok(TimeRange(3.7 / 3.0, 4.3 / 3.0))
  {
  }

  /** For a margin in [0, 1] the band is exactly `2 * margin` central estimates wide,
      so it shrinks onto the central estimate as the margin goes to zero. */
  lemma BandWidth(bac: real, limit: real, ratePerHour: real, margin: real)
    requires limit < bac && 0.0 < ratePerHour && 0.0 <= margin <= 1.0
    ensures EstimateTimeToLimit(bac, limit, ratePerHour, margin).Ok?
    ensures var band := EstimateTimeToLimit(bac, limit, ratePerHour, margin).value;
      band.upper - band.lower == 2.0 * margin * CentralEstimate(bac, limit, ratePerHour)
  {
    var c := CentralEstimate(bac, limit, ratePerHour);
    CentralEstimatePositive(bac, limit, ratePerHour);
    ScaleAroundCentre(c, margin);
    ScaleMonotone(0.0, c, 1.0 - margin);
  }

  /** With a positive rate and a margin below one, the lower end is positive exactly
      when the concentration is above the limit. */
  lemma LowerEndPositiveIffAbove(bac: real, limit: real, ratePerHour: real, margin: real)
    requires 0.0 < ratePerHour && margin < 1.0
    ensures EstimateTimeToLimit(bac, limit, ratePerHour, margin).Ok?
    ensures 0.0 < EstimateTimeToLimit(bac, limit, ratePerHour, margin).value.lower <==> limit < bac
  {
    if limit < bac {
      CentralEstimatePositive(bac, limit, ratePerHour);
      ScalePositive(CentralEstimate(bac, limit, ratePerHour), 1.0 - margin);
    }
  }

  /** A higher concentration never shortens either end of the band. */
  lemma EstimateMonotone(bac1: real, bac2: real, limit: real, ratePerHour: real, margin: real)
    requires bac1 <= bac2 && 0.0 < ratePerHour && 0.0 <= margin
    ensures EstimateTimeToLimit(bac1, limit, ratePerHour, margin).Ok?
    ensures EstimateTimeToLimit(bac2, limit, ratePerHour, margin).Ok?
    ensures var band1 := EstimateTimeToLimit(bac1, limit, ratePerHour, margin).value;
      var band2 := EstimateTimeToLimit(bac2, limit, ratePerHour, margin).value;
      band1.lower <= band2.lower && band1.upper <= band2.upper
  {
    if limit < bac1 {
      var c1 := CentralEstimate(bac1, limit, ratePerHour);
      var c2 := CentralEstimate(bac2, limit, ratePerHour);
      CentralEstimatePositive(bac1, limit, ratePerHour);
      CentralEstimateMonotone(bac1, bac2, limit, ratePerHour);
      if margin <= 1.0 {
        ScaleMonotone(c1, c2, 1.0 - margin);
        AtLeastZeroMonotone(Scale(c1, 1.0 - margin), Scale(c2, 1.0 - margin));
      } else {
        ScaleNonPositive(c1, 1.0 - margin);
      }
      ScaleMonotone(c1, c2, 1.0 + margin);
    } else if limit < bac2 {
      BandOrdered(bac2, limit, ratePerHour, margin);
    }
  }

  lemma CentralEstimatePositive(bac: real, limit: real, ratePerHour: real)
    requires limit < bac && 0.0 < ratePerHour
    ensures 0.0 < CentralEstimate(bac, limit, ratePerHour)
  {
    var c := CentralEstimate(bac, limit, ratePerHour);
    assert c * ratePerHour == bac - limit;
  }

  lemma CentralEstimateMonotone(bac1: real, bac2: real, limit: real, ratePerHour: real)
    requires bac1 <= bac2 && 0.0 < ratePerHour
    ensures CentralEstimate(bac1, limit, ratePerHour) <= CentralEstimate(bac2, limit, ratePerHour)
  {
    var c1 := CentralEstimate(bac1, limit, ratePerHour);
    var c2 := CentralEstimate(bac2, limit, ratePerHour);
    assert (c2 - c1) * ratePerHour == bac2 - bac1;
  }

  lemma ScaleMonotone(x: real, y: real, factor: real)
    requires x <= y && 0.0 <= factor
    ensures Scale(x, factor) <= Scale(y, factor)
  {
  }

  lemma ScaleNonPositive(hours: real, factor: real)
    requires 0.0 <= hours && factor <= 0.0
    ensures Scale(hours, factor) <= 0.0
  {
  }

  lemma ScalePositive(hours: real, factor: real)
    requires 0.0 < hours && 0.0 < factor
    ensures 0.0 < Scale(hours, factor)
  {
  }

  /** Widening a positive number of hours by `margin` each way lands `margin * hours`
      below and above it. */
  lemma ScaleAroundCentre(hours: real, margin: real)
    requires 0.0 < hours && 0.0 <= margin
    ensures Scale(hours, 1.0 - margin) == hours - margin * hours
    ensures Scale(hours, 1.0 + margin) == hours + margin * hours
    ensures 0.0 <= margin * hours && (margin * hours == 0.0 <==> margin == 0.0)
  {
  }

  /** Whole hours and whole minutes, as displayed. */
  datatype HoursMinutes = HoursMinutes(hours: int, minutes: int)

  /** The number of whole minutes a split stands for. */
  function TotalMinutes(hm: HoursMinutes): int
  {
    hm.hours * 60 + hm.minutes
  }

  /** `ore_minuti`: the integer part of `t`, then the integer part of the leftover
      fraction of an hour in minutes, both truncated as Python's `int` does. For
      non-negative `t` the hours are its floor, the minutes lie in 0..59 and the split
      is `t` in minutes rounded down. */
  function SplitHours(t: real): (hm: HoursMinutes)
    ensures 0.0 <= t ==> hm.hours == t.Floor && 0 <= hm.minutes <= 59
    ensures 0.0 <= t ==> TotalMinutes(hm) as real <= t * 60.0 < TotalMinutes(hm) as real + 1.0
  {
    var hours := Truncate(t);
    HoursMinutes(hours, Truncate((t - hours as real) * 60.0))
  }

  /** Splitting a negative number of hours gives the negated split of its magnitude. */
  lemma SplitHoursOdd(t: real)
    ensures SplitHours(-t) == HoursMinutes(-SplitHours(t).hours, -SplitHours(t).minutes)
  {
    var h := Truncate(t);
    TruncateOdd(t);
    assert (-t - (-h) as real) * 60.0 == -((t - h as real) * 60.0);
    TruncateOdd((t - h as real) * 60.0);
  }

  /** For non-negative hours the displayed split never reverses their order. */
  lemma SplitHoursMonotone(t1: real, t2: real)
    requires 0.0 <= t1 <= t2
    ensures TotalMinutes(SplitHours(t1)) <= TotalMinutes(SplitHours(t2))
  {
    var m1, m2 := TotalMinutes(SplitHours(t1)), TotalMinutes(SplitHours(t2));
    assert m1 as real < m2 as real + 1.0;
  }
}
