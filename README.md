# Blood alcohol calculator — verified model of its arithmetic

The calculator (`bac.py`, a Streamlit page) estimates a person's blood alcohol
concentration in per mille from a list of drinks, subtracts what the body has
eliminated since drinking, shows a three-level legal alert, and estimates how long
it will take for the concentration to fall below a limit the user chooses. The
estimate is a band of hours around a central value, and each end is shown as
whole hours and whole minutes.

This project models the arithmetic of that page in Dafny over exact reals:

- `numerics.dfy`, module `Numerics`: Python's `int()` on a float, which truncates
  toward zero, and `max(x, 0)`.
- `time_to_limit.dfy`, module `TimeToLimit`: `calcola_tempo_per_limite`, modelled as
  `EstimateTimeToLimit`, and `ore_minuti`, modelled as `SplitHours`. Both are pure
  functions. The lemmas state the band's case split, ordering, sign, centre, width
  and monotonicity, and the truncation identity of the split.
- `bac_script.dfy`, module `BacScript`: the top-level calculation. The loop that
  sums the per-drink contributions is a method with a loop invariant. It is proved
  equal to an in-order sum, and the sum is proved non-negative and independent of
  drink order. The module also holds the conversion of elapsed hours to whole
  minutes, the clamp of the final concentration, the three-band alert and the
  choice between the two time messages. `Calculate` runs the whole sequence.

The two `boozelib` formulas, `get_blood_alcohol_content` and
`get_blood_alcohol_degradation`, are parameters of function type (`ContentFn`,
`DegradationFn`). The only assumption about them is `LibraryNonNegative`: they never
return a negative amount for inputs inside the form's bounds (for the elimination
formula, 0..1440 minutes). The flat rate of
0.15 per mille per hour used for the time estimate (`RatePerHour`) is kept apart
from the person-specific elimination that the library computes.

Three points about the code that the model keeps as written:

- `ore_minuti` and the minute conversion use `int()`, which truncates toward zero.
  `SplitHours` and `ElapsedMinutes` truncate toward zero, and the model proves that
  this is the floor for non-negative times.
- `calcola_tempo_per_limite` accepts any rate and margin. Above the limit, a zero rate
  raises `ZeroDivisionError`, which the model returns as `Err(DivisionByZero)`. The
  lemmas state which rates and margins each property needs.
- The page tests only `tempo_min > 0`. `MessageChoice` proves that at rate 0.15 and
  margin 0.075 this holds exactly when the concentration is above the limit.

## Model

| member | source | states |
|---|---|---|
| Numerics.Truncate | bac.py:85-86 | `int()` truncates toward zero: for x >= 0 the result n has n <= x < n + 1, and for x <= 0 it has n - 1 < x <= n |
| Numerics.TruncateIsFloor | bac.py:85 | on non-negative inputs `int()` is the floor |
| Numerics.TruncateOdd | bac.py:85 | `int(-x) == -int(x)` |
| Numerics.TruncateMonotone | bac.py:85 | `int()` never reverses the order of its inputs |
| Numerics.AtLeastZero | bac.py:79 | `max(x, 0)` is at least x and at least 0, and is one of the two |
| TimeToLimit.EstimateTimeToLimit | bac.py:75-81 | returns (0, 0) when the concentration is at or below the limit; fails exactly when it is above the limit and the rate is zero, as the division would; otherwise the lower end is never negative |
| TimeToLimit.BandOrdered | bac.py:78-81 | above the limit, with a positive rate and a margin >= 0: 0 <= lower <= upper and upper > 0 |
| TimeToLimit.BandBracketsCentre | bac.py:78-80 | lower <= (bac - limit) / rate <= upper; the ends coincide exactly when the margin is 0, and both then equal the central estimate |
| TimeToLimit.BandSymmetric | bac.py:78-80 | for a margin in [0, 1] the band is symmetric around the central estimate c: upper - c == margin × c and c - lower == margin × c |
| TimeToLimit.WorkedExample | bac.py:75-81 | at 0.6 per mille, limit 0.4, rate 0.15 and margin 0.075 the band is exactly (3.7/3, 4.3/3) hours, about 1.233 to 1.433 |
| TimeToLimit.BandWidth | bac.py:79-80 | for a margin in [0, 1] the band is 2 × margin × the central estimate wide, so it shrinks to the centre as the margin goes to 0 |
| TimeToLimit.LowerEndPositiveIffAbove | bac.py:76-79 | with a positive rate and a margin < 1, the lower end is positive exactly when the concentration is above the limit |
| TimeToLimit.EstimateMonotone | bac.py:75-81 | a higher concentration never lowers either end of the band; this includes crossing from (0, 0) to a real band |
| TimeToLimit.SplitHours | bac.py:84-87 | for t >= 0: hours = floor(t), minutes in 0..59, and hours×60 + minutes <= t×60 < hours×60 + minutes + 1 |
| TimeToLimit.SplitHoursOdd | bac.py:84-87 | splitting -t gives the negated hours and negated minutes of splitting t |
| TimeToLimit.SplitHoursMonotone | bac.py:84-87 | for 0 <= t1 <= t2 the displayed split of t1 is no more minutes than that of t2 |
| BacScript.AccumulateBac | bac.py:90-100 | the `bac_totale += bac` loop computes `TotalBac`, the sum of the per-drink contributions in list order |
| BacScript.TotalBacNonNegative | bac.py:90-100 | the total is non-negative when every drink's contribution is |
| BacScript.TotalBacConcat | bac.py:90-100 | the total of two lists, one after the other, is the sum of their totals |
| BacScript.TotalBacPermutation | bac.py:90-100 | lists with the same drinks in any order have the same total |
| BacScript.ElapsedMinutes | bac.py:103 | `int(tempo_ore * 60)` is the elapsed time in minutes rounded down, 0..1440 for the form's 0..24 hours |
| BacScript.ElapsedMinutesMatchesSplit | bac.py:103 | over exact reals, for t >= 0: int(t×60) == 60×int(t) + int((t − int(t))×60), i.e. the one-step minute truncation agrees with the two-step one of `ore_minuti` |
| BacScript.FinalBac | bac.py:111 | the final concentration is >= 0 and >= total - degradation, equals total - degradation whenever it is positive, and is <= total when both amounts are non-negative |
| BacScript.Classify | bac.py:118-123 | exactly one alert per concentration: success iff < 0.5, warning iff 0.5 <= x < 0.8, error iff >= 0.8 |
| BacScript.ClassifyMonotone | bac.py:118-123 | a higher concentration never gives a milder alert |
| BacScript.ChooseMessage | bac.py:129-135 | the time band is shown exactly when its lower end is positive, with each end split into hours and minutes; otherwise the "already below" text |
| BacScript.MessageChoice | bac.py:126-135 | at rate 0.15 and margin 0.075 the estimate never fails, and the band is shown exactly when the concentration is above the limit; its shown ends are in order, with minutes in 0..59 |
| BacScript.Calculate | bac.py:90-135 | on in-range form inputs, and with the library assumed non-negative: the initial concentration is the in-order sum and is >= 0; the elapsed minutes are `int(hours × 60)`, in 0..1440, and over exact reals equal 60×int(hours) + int((hours − int(hours))×60); 0 <= final <= initial; the alert is the classification of the final value; the band message is shown exactly when the final value is above the limit |

## Left out

- The Streamlit page is not part of this model: the widgets, page configuration and session state with the `numero_bevande` callback (bac.py:1-72), and the `st.*` output calls and string formatting in bac.py:114-137 (the branch conditions there are modelled by `Classify` and `ChooseMessage`). The widgets' bounds appear as the preconditions `ValidPerson`, `ValidDrink` and the ranges of hours and limit in `Calculate`.
- The loop that builds `bevande` from the drink widgets (bac.py:50-69) only copies widget values into a list. The list of drinks is an input of `Calculate`.
- The internals of `boozelib` (bac.py:2-5, 92-99, 104-110) are not part of this model. Its two functions are parameters, and the only assumption is that their results are non-negative. Properties of the formulas themselves, such as monotonicity in volume, are therefore not stated.
- ElapsedMinutesMatchesSplit: the equality holds over exact reals only. In IEEE doubles it can fail; at 2.3 hours `int(2.3 * 60)` is 138 while `ore_minuti(2.3)` is (2, 17), which is 137 minutes. The same applies to that clause of `Calculate`. The page does not depend on it, since it never splits the elapsed time.
- Floating-point rounding is not modelled. All arithmetic is over exact reals, so formatting to three or two decimals is not modelled either.
- The default value of `margine` is the constant `DefaultMargin`, which callers pass explicitly.
- Calculate: the non-negativity of the two library results is an assumption (`LibraryNonNegative`), not a proved property; the bounds `0 <= final <= initial` rest on it.
