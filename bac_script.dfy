/** The calculation the calculator page runs on every change of its inputs: the
    blood alcohol concentration (per mille) summed over the drinks, the elapsed time
    in whole minutes, the concentration left after the person-specific elimination,
    the three-level legal alert and the choice of the time-to-limit message.

    The two `boozelib` formulas are not part of this model: they are parameters of
    function type, and the only thing assumed of them is that they never return a
    negative amount for inputs inside the form's bounds. */
module BacScript {
  import opened Numerics
  import opened TimeToLimit

  /** The personal data entered in the sidebar; `female` is the sex radio button. */
  datatype Person = Person(age: int, weightKg: int, heightCm: int, female: bool)

  /** One drink: its volume in millilitres and its alcohol content in percent. */
  datatype Drink = Drink(volumeMl: int, percent: real)

  /** `get_blood_alcohol_content`: the concentration one drink adds for a person. */
  type ContentFn = (Person, Drink) -> real

  /** `get_blood_alcohol_degradation`: the concentration a person eliminates in a
      number of minutes. */
  type DegradationFn = (Person, int) -> real

  /** The bounds of the sidebar's number inputs. */
  predicate ValidPerson(p: Person)
  {
    18 <= p.age <= 100 && 30 <= p.weightKg <= 200 && 120 <= p.heightCm <= 250
  }

  /** The bounds of a drink's number inputs. */
  predicate ValidDrink(d: Drink)
  {
    0 <= d.volumeMl <= 2000 && 0.0 <= d.percent <= 100.0
  }

  /** What is assumed of the library: no negative amounts on inputs inside the bounds. */
  ghost predicate LibraryNonNegative(content: ContentFn, degradation: DegradationFn)
  {
    (forall p, d :: ValidPerson(p) && ValidDrink(d) ==> 0.0 <= content(p, d)) &&
    (forall p, m :: ValidPerson(p) && 0 <= m <= 1440 ==> 0.0 <= degradation(p, m))
  }

  /** The flat elimination rate of the time-to-limit estimate, in per mille per hour;
      it is distinct from the person-specific elimination of `DegradationFn`. */
  const RatePerHour: real := 0.15

  /** The concentrations at which the alert turns from success to warning and from
      warning to error. */
  const LegalLimit: real := 0.5
  const HighLimit: real := 0.8

  /** The sum of the contributions of `drinks`, added in list order. */
  function TotalBac(p: Person, drinks: seq<Drink>, content: ContentFn): real
  {
    if drinks == [] then 0.0
    else TotalBac(p, drinks[..|drinks| - 1], content) + content(p, drinks[|drinks| - 1])
  }

  /** The loop that accumulates `bac_totale`, one drink at a time. */
  method AccumulateBac(p: Person, drinks: seq<Drink>, content: ContentFn) returns (total: real)
    ensures total == TotalBac(p, drinks, content)
  {
    total := 0.0;
    for i := 0 to |drinks|
      invariant total == TotalBac(p, drinks[..i], content)
    {
      assert drinks[..i + 1][..i] == drinks[..i];
      total := total + content(p, drinks[i]);
    }
    assert drinks[..|drinks|] == drinks;
  }

  /** When no drink contributes a negative amount, neither does the total. */
  lemma {:induction false} TotalBacNonNegative(p: Person, drinks: seq<Drink>, content: ContentFn)
    requires forall d :: d in drinks ==> 0.0 <= content(p, d)
    ensures 0.0 <= TotalBac(p, drinks, content)
  {
    if drinks != [] {
      TotalBacNonNegative(p, drinks[..|drinks| - 1], content);
    }
  }

  /** The total of two lists drunk one after the other is the sum of their totals. */
  lemma {:induction false} TotalBacConcat(p: Person, a: seq<Drink>, b: seq<Drink>, content: ContentFn)
    ensures TotalBac(p, a + b, content) == TotalBac(p, a, content) + TotalBac(p, b, content)
  {
    if b == [] {
      assert a + b == a;
    } else {
      var n := |b| - 1;
      assert (a + b)[..|a + b| - 1] == a + b[..n];
      TotalBacConcat(p, a, b[..n], content);
    }
  }

  /** The order in which the drinks are listed does not change the total. */
  lemma {:induction false} TotalBacPermutation(p: Person, a: seq<Drink>, b: seq<Drink>, content: ContentFn)
    requires multiset(a) == multiset(b)
    ensures TotalBac(p, a, content) == TotalBac(p, b, content)
    decreases |a|
  {
    if a == [] {
      assert |b| == |multiset(b)| == 0;
    } else {
      var n := |a| - 1;
      var x := a[n];
      assert a == a[..n] + [x];
      assert x in multiset(b);
      var i :| 0 <= i < |b| && b[i] == x;
      var rest := b[..i] + b[i + 1..];
      assert b == b[..i] + [x] + b[i + 1..];
      assert multiset(a[..n]) == multiset(rest) by {
        assert multiset(a) == multiset(a[..n]) + multiset{x};
        assert multiset(b) == multiset(b[..i]) + multiset{x} + multiset(b[i + 1..]);
        assert multiset(rest) == multiset(b[..i]) + multiset(b[i + 1..]);
        forall y ensures multiset(a[..n])[y] == multiset(rest)[y] {
          assert multiset(a)[y] == multiset(b)[y];
        }
      }
      TotalBacPermutation(p, a[..n], rest, content);
      TotalBacConcat(p, b[..i] + [x], b[i + 1..], content);
      TotalBacConcat(p, b[..i], [x], content);
      TotalBacConcat(p, b[..i], b[i + 1..], content);
      assert TotalBac(p, [x], content) == content(p, x) by {
        assert [x][..0] == [];
      }
    }
  }

  /** `int(tempo_ore * 60)`: the elapsed time in whole minutes, rounded down. */
  function ElapsedMinutes(hours: real): (m: int)
    ensures 0.0 <= hours ==> 0 <= m && m as real <= hours * 60.0 < m as real + 1.0
    ensures hours <= 24.0 ==> m <= 1440
  {
    Truncate(hours * 60.0)
  }

  /** Over exact reals, truncating a non-negative time in minutes gives the same count
      as the two-step truncation of `ore_minuti`:
      int(t * 60) == 60 * int(t) + int((t - int(t)) * 60). The page itself never splits
      the elapsed time; the lemma relates the two truncations the code uses. */
  lemma ElapsedMinutesMatchesSplit(hours: real)
    requires 0.0 <= hours
    ensures ElapsedMinutes(hours) == TotalMinutes(SplitHours(hours))
  {
    var hm := SplitHours(hours);
    TruncateUnique(hours * 60.0, TotalMinutes(hm));
  }

  /** `max(bac_totale - degradazione, 0)`: what is left after elimination, never
      negative and, for non-negative amounts, never more than what was drunk. */
  function FinalBac(total: real, degradation: real): (r: real)
    ensures 0.0 <= r && total - degradation <= r
    ensures 0.0 < r ==> r == total - degradation
    ensures 0.0 <= total && 0.0 <= degradation ==> r <= total
  {
    AtLeastZero(total - degradation)
  }

  /** The three alerts: `st.success`, `st.warning` and `st.error`. */
  datatype Alert = Success | Warning | Error

  /** The alerts ordered from mildest to gravest. */
  function Severity(a: Alert): nat
  {
    match a
    case Success => 0
    case Warning => 1
    case Error => 2
  }

  /** The legal-limit alert for a concentration: exactly one of the three bands. */
  function Classify(bac: real): (a: Alert)
    ensures a == Success <==> bac < LegalLimit
    ensures a == Warning <==> LegalLimit <= bac < HighLimit
    ensures a == Error <==> HighLimit <= bac
  {
    if bac < LegalLimit then Success
    else if LegalLimit <= bac < HighLimit then Warning
    else Error
  }

  /** A higher concentration never gives a milder alert. */
  lemma ClassifyMonotone(bac1: real, bac2: real)
    requires bac1 <= bac2
    ensures Severity(Classify(bac1)) <= Severity(Classify(bac2))
  {
  }

  /** The two texts under the alert: the band of hours and minutes to wait, or the
      statement that the concentration is already below the limit. */
  datatype Message = WaitBetween(lower: HoursMinutes, upper: HoursMinutes) | AlreadyBelowLimit

  /** The band is shown exactly when its lower end is positive, as a split of each end. */
  function ChooseMessage(band: TimeRange): (m: Message)
    ensures m.WaitBetween? <==> 0.0 < band.lower
    ensures m.WaitBetween? ==> m.lower == SplitHours(band.lower) && m.upper == SplitHours(band.upper)
  {
    if 0.0 < band.lower then WaitBetween(SplitHours(band.lower), SplitHours(band.upper))
    else AlreadyBelowLimit
  }

  /** With the page's rate and margin the estimate never fails, and the band is shown
      exactly when the concentration is above the chosen limit; its displayed ends
      are then in order, with minutes in 0..59. */
  lemma MessageChoice(bac: real, limit: real)
    ensures EstimateTimeToLimit(bac, limit, RatePerHour, DefaultMargin).Ok?
    ensures var m := ChooseMessage(EstimateTimeToLimit(bac, limit, RatePerHour, DefaultMargin).value);
      (m.WaitBetween? <==> limit < bac) &&
      (m.WaitBetween? ==>
        0 <= m.lower.minutes <= 59 && 0 <= m.upper.minutes <= 59 &&
        TotalMinutes(m.lower) <= TotalMinutes(m.upper))
  {
    LowerEndPositiveIffAbove(bac, limit, RatePerHour, DefaultMargin);
    if limit < bac {
      BandOrdered(bac, limit, RatePerHour, DefaultMargin);
      var band := EstimateTimeToLimit(bac, limit, RatePerHour, DefaultMargin).value;
      SplitHoursMonotone(band.lower, band.upper);
    }
  }

  /** Everything the page displays after its inputs. */
  datatype Report = Report(
    initialBac: real,
    elapsedMinutes: int,
    degradation: real,
    finalBac: real,
    alert: Alert,
    message: Message)

  /** The calculation from bac.py's form inputs to its outputs: the loop over the
      drinks, the conversion of the elapsed hours to minutes, the elimination and
      clamp, the alert, and the time-to-limit message at the flat rate. */
  method Calculate(person: Person, drinks: seq<Drink>, hours: real, limit: real,
                   content: ContentFn, degradationOf: DegradationFn) returns (report: Report)
    requires ValidPerson(person) && 1 <= |drinks| <= 20
    requires forall d :: d in drinks ==> ValidDrink(d)
    requires 0.0 <= hours <= 24.0 && 0.0 <= limit <= 1.0
    requires LibraryNonNegative(content, degradationOf)
    ensures report.initialBac == TotalBac(person, drinks, content) && 0.0 <= report.initialBac
    ensures report.elapsedMinutes == ElapsedMinutes(hours) == TotalMinutes(SplitHours(hours))
    ensures 0 <= report.elapsedMinutes <= 1440
    ensures report.degradation == degradationOf(person, report.elapsedMinutes)
    ensures report.finalBac == FinalBac(report.initialBac, report.degradation)
    ensures 0.0 <= report.finalBac <= report.initialBac
    ensures report.alert == Classify(report.finalBac)
    ensures EstimateTimeToLimit(report.finalBac, limit, RatePerHour, DefaultMargin).Ok?
    ensures report.message
      == ChooseMessage(EstimateTimeToLimit(report.finalBac, limit, RatePerHour, DefaultMargin).value)
    ensures report.message.WaitBetween? <==> limit < report.finalBac
  {
    var total := AccumulateBac(person, drinks, content);
    TotalBacNonNegative(person, drinks, content);
    var minutes := ElapsedMinutes(hours);
    ElapsedMinutesMatchesSplit(hours);
    var degradation := degradationOf(person, minutes);
    var final := FinalBac(total, degradation);
    var estimate := EstimateTimeToLimit(final, limit, RatePerHour, DefaultMargin);
    MessageChoice(final, limit);
    report := Report(total, minutes, degradation, final, Classify(final), ChooseMessage(estimate.value));
  }
}
