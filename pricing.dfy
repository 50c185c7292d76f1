/**
 * The pricing estimator: a size multiplier looked up from a table, linear
 * cost components, and every output rounded to the nearest ten dollars.
 * Money is exact (real) arithmetic; see README for floating point.
 */
module Pricing {

  import opened Wrappers

  const BaseRate: real := 150.0
  const MileageRate: real := 2.5
  const MaterialsBase: real := 50.0
  const SpecialItemSurcharge: real := 100.0
  const DefaultSizeMultiplier: real := 1.5

  const SizeMultipliers: map<string, real> :=
    map["studio" := 1.0, "1br" := 1.2, "2-3br" := 1.8, "4+br" := 2.5, "office" := 2.0]

  /** Rounds to the nearest multiple of ten, an exact half going to the even
      multiple of ten (the rule of Python's `round(x, -1)`). */
  function RoundTo10(x: real): (r: int)
    ensures r % 10 == 0
    ensures x - 5.0 <= r as real <= x + 5.0
  {
    var q := x / 10.0;
    var f := q.Floor;
    var frac := q - f as real;
    var n := if frac < 0.5 then f
             else if frac > 0.5 then f + 1
             else if f % 2 == 0 then f
             else f + 1;
    10 * n
  }

  /** Rounding to ten never reverses the order of two amounts. */
  lemma RoundTo10Monotone(x: real, y: real)
    requires x <= y
    ensures RoundTo10(x) <= RoundTo10(y)
  {
  }

  /** An exact half rounds to the even multiple of ten. */
  lemma RoundTo10HalfToEven(n: int)
    ensures RoundTo10(10.0 * n as real + 5.0) == (if n % 2 == 0 then 10 * n else 10 * (n + 1))
  {
    var q := (10.0 * n as real + 5.0) / 10.0;
    assert q == n as real + 0.5;
    assert q.Floor == n;
  }

  /** A non-negative amount rounds to a non-negative amount. */
  lemma RoundTo10NonNegative(x: real)
    requires x >= 0.0
    ensures RoundTo10(x) >= 0
  {
    var r := RoundTo10(x);
    assert r == 10 * (r / 10);
  }

  /** The size multiplier, with 1.5 for any size the table does not list. */
  function SizeMultiplier(moveSize: Option<string>): (m: real)
    ensures 1.0 <= m <= 2.5
    ensures moveSize.None? || moveSize.value !in SizeMultipliers ==> m == DefaultSizeMultiplier
    ensures moveSize.Some? && moveSize.value in SizeMultipliers ==> m == SizeMultipliers[moveSize.value]
  {
    if moveSize.Some? && moveSize.value in SizeMultipliers then SizeMultipliers[moveSize.value]
    else DefaultSizeMultiplier
  }

  /** The unrounded cost components of a move. */
  datatype Costs = Costs(labor: real, truckTravel: real, materials: real, surcharge: real)
  {
    function Total(): real
    {
      labor + truckTravel + materials + surcharge
    }
  }

  function ComputeCosts(distanceMiles: real, moveSize: Option<string>, specialItems: seq<string>): (c: Costs)
    ensures distanceMiles >= 0.0 ==>
      c.labor > 0.0 && c.truckTravel >= 0.0 && c.materials > 0.0 && c.surcharge >= 0.0
  {
    var m := SizeMultiplier(moveSize);
    Costs(BaseRate * m, distanceMiles * MileageRate, MaterialsBase * m,
          |specialItems| as real * SpecialItemSurcharge)
  }

  /** The estimate returned to the caller, in whole dollars. */
  datatype Estimate = Estimate(low: int, high: int, typical: int,
                               labor: int, truckTravel: int, materials: int)

  /** The figures reported for given unrounded costs: each rounded on its
      own, after it is computed. */
  function EstimateOf(c: Costs): (e: Estimate)
    ensures e.low % 10 == 0 && e.high % 10 == 0 && e.typical % 10 == 0
    ensures e.labor % 10 == 0 && e.truckTravel % 10 == 0 && e.materials % 10 == 0
  {
    var typical := c.Total();
    Estimate(RoundTo10(typical * 0.8), RoundTo10(typical * 1.2), RoundTo10(typical),
             RoundTo10(c.labor), RoundTo10(c.truckTravel), RoundTo10(c.materials))
  }

  /** `calculate_estimate`: figures in tens of dollars, ordered low <= typical
      <= high and non-negative for a non-negative distance. */
  function CalculateEstimate(distanceMiles: real, moveSize: Option<string>, specialItems: seq<string>): (e: Estimate)
    ensures e.low % 10 == 0 && e.high % 10 == 0 && e.typical % 10 == 0
    ensures distanceMiles >= 0.0 ==>
      0 <= e.low <= e.typical <= e.high && e.labor >= 0 && e.truckTravel >= 0 && e.materials >= 0
  {
    EstimateOf(ComputeCosts(distanceMiles, moveSize, specialItems))
  }

  /** The unrounded typical cost is 200 dollars per unit of size multiplier
      (labor plus materials), 2.50 per mile and 100 per special item. */
  lemma TypicalClosedForm(distanceMiles: real, moveSize: Option<string>, specialItems: seq<string>)
    ensures ComputeCosts(distanceMiles, moveSize, specialItems).Total()
         == 200.0 * SizeMultiplier(moveSize) + 2.5 * distanceMiles + 100.0 * |specialItems| as real
    ensures var e := CalculateEstimate(distanceMiles, moveSize, specialItems);
            var t := ComputeCosts(distanceMiles, moveSize, specialItems).Total();
            t - 5.0 <= e.typical as real <= t + 5.0
  {
  }

  /** The rounded figures of two cost totals keep their order. */
  lemma EstimateOfMonotone(c1: Costs, c2: Costs)
    requires c1.Total() <= c2.Total()
    ensures EstimateOf(c1).low <= EstimateOf(c2).low
    ensures EstimateOf(c1).typical <= EstimateOf(c2).typical
    ensures EstimateOf(c1).high <= EstimateOf(c2).high
  {
    var t1, t2 := c1.Total(), c2.Total();
    RoundTo10Monotone(t1 * 0.8, t2 * 0.8);
    RoundTo10Monotone(t1, t2);
    RoundTo10Monotone(t1 * 1.2, t2 * 1.2);
  }

  /** A longer move never gets a lower low, typical or high estimate. */
  lemma EstimateMonotoneInDistance(d1: real, d2: real, moveSize: Option<string>, specialItems: seq<string>)
    requires d1 <= d2
    ensures var e1, e2 := CalculateEstimate(d1, moveSize, specialItems), CalculateEstimate(d2, moveSize, specialItems);
            e1.low <= e2.low && e1.typical <= e2.typical && e1.high <= e2.high
            && e1.truckTravel <= e2.truckTravel
  {
    var c1, c2 := ComputeCosts(d1, moveSize, specialItems), ComputeCosts(d2, moveSize, specialItems);
    EstimateOfMonotone(c1, c2);
    RoundTo10Monotone(c1.truckTravel, c2.truckTravel);
  }

  /** More special items never get a lower low, typical or high estimate. */
  lemma EstimateMonotoneInSpecialItems(distanceMiles: real, moveSize: Option<string>, items1: seq<string>, items2: seq<string>)
    requires |items1| <= |items2|
    ensures var e1, e2 := CalculateEstimate(distanceMiles, moveSize, items1), CalculateEstimate(distanceMiles, moveSize, items2);
            e1.low <= e2.low && e1.typical <= e2.typical && e1.high <= e2.high
  {
    EstimateOfMonotone(ComputeCosts(distanceMiles, moveSize, items1), ComputeCosts(distanceMiles, moveSize, items2));
  }

  /** A studio moved zero miles with no special items. */
  lemma StudioAtZeroDistance()
    ensures CalculateEstimate(0.0, Some("studio"), []) == Estimate(160, 240, 200, 150, 0, 50)
  {
    assert SizeMultiplier(Some("studio")) == 1.0;
    assert (160.0 / 10.0).Floor == 16 && (240.0 / 10.0).Floor == 24 && (200.0 / 10.0).Floor == 20;
    assert (150.0 / 10.0).Floor == 15 && (0.0 / 10.0).Floor == 0 && (50.0 / 10.0).Floor == 5;
  }

  /** A 4+br move: labor 375 rounds up to 380 and materials 125 down to 120,
      both exact halves going to the even ten. */
  lemma LargeHomeRoundsHalfToEven()
    ensures CalculateEstimate(0.0, Some("4+br"), []).labor == 380
    ensures CalculateEstimate(0.0, Some("4+br"), []).materials == 120
  {
    assert SizeMultiplier(Some("4+br")) == 2.5;
    RoundTo10HalfToEven(37);
    RoundTo10HalfToEven(12);
  }
}
