/** Revenue optimisation over a discrete price grid: a fixed price-range
    table, a 1000-yen grid from the range's low end to its high end, a demand
    floor of 10 passengers, and the first price that maximises revenue. The
    demand curve `int(base * (price / 20000) ** elasticity)` is a parameter,
    so every property holds for any elasticity. */
module Pricing {
  import opened Common
  import opened Text

  const PriceStep: int := 1000
  const DemandFloor: int := 10

  datatype PriceRange = PriceRange(low: int, high: int)

  /** The price range for a flight: domestic routes have one range, other
      route types a range that moves up with the flight time. */
  function GetPriceRange(flightMinutes: int, routeType: string): (r: PriceRange)
    ensures r.low < r.high
    ensures r.low % PriceStep == 0 && r.high % PriceStep == 0
    ensures routeType == "domestic" ==> r == PriceRange(10000, 30000)
    ensures routeType != "domestic" && flightMinutes <= 120 ==> r == PriceRange(15000, 35000)
    ensures routeType != "domestic" && 120 < flightMinutes <= 240 ==> r == PriceRange(20000, 45000)
    ensures routeType != "domestic" && flightMinutes > 240 ==> r == PriceRange(25000, 50000)
  {
    if routeType == "domestic" then PriceRange(10000, 30000)
    else if flightMinutes <= 120 then PriceRange(15000, 35000)
    else if flightMinutes <= 240 then PriceRange(20000, 45000)
    else PriceRange(25000, 50000)
  }

  /** For a non-domestic route a longer flight never lowers either end of
      the range; a domestic range ignores the flight time. */
  lemma PriceRangeGrowsWithFlightTime(m1: int, m2: int, routeType: string)
    requires m1 <= m2
    ensures GetPriceRange(m1, routeType).low <= GetPriceRange(m2, routeType).low
    ensures GetPriceRange(m1, routeType).high <= GetPriceRange(m2, routeType).high
    ensures routeType == "domestic" ==> GetPriceRange(m1, routeType) == GetPriceRange(m2, routeType)
  {
  }

  /** The range for a flight-time label such as `"180分"`: the label is read
      back with `int(label.replace('分', ''))`, and a label that does not
      parse is an error (`None`). */
  function PriceRangeForLabel(timeLabel: string, routeType: string): (r: Option<PriceRange>)
    ensures r.Some? <==> ParseNat(ReplaceAll(timeLabel, "分", "")).Some?
  {
    match ParseNat(ReplaceAll(timeLabel, "分", ""))
    case Some(minutes) => Some(GetPriceRange(minutes, routeType))
    case None => None
  }

  /** The label the generator writes, `f"{minutes}分"`, always reads back to
      the minutes it was written from. */
  lemma PriceRangeForLabelRoundTrip(minutes: nat, routeType: string)
    ensures PriceRangeForLabel(NatToString(minutes) + "分", routeType)
            == Some(GetPriceRange(minutes, routeType))
  {
    var s := NatToString(minutes);
    assert '分' !in s;
    StripSuffixChar(s, '分');
    assert NatToString(minutes) + "分" == s + ['分'];
    ParseNatToString(minutes);
  }

  /** `numpy.arange(start, stop, step)` on integers: from `start` upward in
      steps, stopping before `stop`. */
  function Arange(start: int, stop: int, step: int): seq<int>
    requires step > 0
    decreases stop - start
  {
    if start >= stop then [] else [start] + Arange(start + step, stop, step)
  }

  lemma {:induction false} ArangeShape(start: int, stop: int, step: int)
    requires step > 0
    ensures forall i :: 0 <= i < |Arange(start, stop, step)| ==>
              Arange(start, stop, step)[i] == start + i * step
    ensures start + |Arange(start, stop, step)| * step >= stop
    ensures |Arange(start, stop, step)| > 0 ==>
              start + (|Arange(start, stop, step)| - 1) * step < stop
    decreases stop - start
  {
    if start < stop {
      var rest := Arange(start + step, stop, step);
      ArangeShape(start + step, stop, step);
      assert Arange(start, stop, step) == [start] + rest;
      forall i | 0 < i < |rest| + 1
        ensures Arange(start, stop, step)[i] == start + i * step
      {
        assert Arange(start, stop, step)[i] == rest[i - 1] == start + step + (i - 1) * step;
      }
      if |rest| > 0 {
        assert start + step + (|rest| - 1) * step == start + |rest| * step;
      }
      assert start + step + |rest| * step == start + (|rest| + 1) * step;
    }
  }

  /** The price grid: `numpy.arange(low, high + 1000, 1000)`. */
  function PriceGrid(range: PriceRange): seq<int> {
    Arange(range.low, range.high + PriceStep, PriceStep)
  }

  /** For a range whose ends are 1000 apart a whole number of times the grid
      is exactly `low, low + 1000, ..., high`: `high` is its last point, and
      `high + 1000` is not a point of it. */
  lemma PriceGridShape(range: PriceRange)
    requires range.low <= range.high && (range.high - range.low) % PriceStep == 0
    ensures |PriceGrid(range)| == (range.high - range.low) / PriceStep + 1
    ensures forall i :: 0 <= i < |PriceGrid(range)| ==> PriceGrid(range)[i] == range.low + i * PriceStep
    ensures PriceGrid(range)[|PriceGrid(range)| - 1] == range.high
    ensures range.high + PriceStep !in PriceGrid(range)
  {
    var g := PriceGrid(range);
    ArangeShape(range.low, range.high + PriceStep, PriceStep);
    var k := (range.high - range.low) / PriceStep;
    assert range.high == range.low + k * PriceStep;
    var n := |g|;
    assert n == k + 1 by {
      assert range.low + n * PriceStep >= range.low + (k + 1) * PriceStep;
      if n > 0 {
        assert range.low + (n - 1) * PriceStep < range.low + (k + 1) * PriceStep;
      }
    }
  }

  /** Every range of the table gives a grid of 21, 21, 26 or 26 prices,
      all multiples of 1000 between the range's ends. */
  lemma TableGridsAreExact(flightMinutes: int, routeType: string)
    ensures var range := GetPriceRange(flightMinutes, routeType);
            |PriceGrid(range)| == (range.high - range.low) / PriceStep + 1 &&
            (forall p :: p in PriceGrid(range) ==> range.low <= p <= range.high && p % PriceStep == 0)
  {
    var range := GetPriceRange(flightMinutes, routeType);
    PriceGridShape(range);
    forall p | p in PriceGrid(range)
      ensures range.low <= p <= range.high && p % PriceStep == 0
    {
      var i :| 0 <= i < |PriceGrid(range)| && PriceGrid(range)[i] == p;
    }
  }

  datatype PricingResult = PricingResult(price: int, demand: int, revenue: int)

  /** Demand at a price: the curve's value, never below 10 passengers. */
  function DemandAt(curve: int -> int, price: int): (d: int)
    ensures d >= DemandFloor
    ensures d >= curve(price)
    ensures d == curve(price) || d == DemandFloor
  {
    if curve(price) < DemandFloor then DemandFloor else curve(price)
  }

  function RevenueAt(curve: int -> int, price: int): int {
    price * DemandAt(curve, price)
  }

  /** `k` is where `numpy.argmax` lands: a maximum, and the first one. */
  predicate IsFirstArgmax(xs: seq<int>, k: int) {
    && 0 <= k < |xs|
    && (forall j :: 0 <= j < |xs| ==> xs[j] <= xs[k])
    && (forall j :: 0 <= j < k ==> xs[j] < xs[k])
  }

  /** There is only one first maximum. */
  lemma FirstArgmaxUnique(xs: seq<int>, k1: int, k2: int)
    requires IsFirstArgmax(xs, k1) && IsFirstArgmax(xs, k2)
    ensures k1 == k2
  {
    assert xs[k1] == xs[k2];
  }

  /** `numpy.argmax`: the index of the first largest element. */
  method Argmax(xs: seq<int>) returns (k: nat)
    requires |xs| > 0
    ensures IsFirstArgmax(xs, k)
  {
    k := 0;
    var i := 1;
    while i < |xs|
      invariant 1 <= i <= |xs|
      invariant k < i
      invariant forall j :: 0 <= j < i ==> xs[j] <= xs[k]
      invariant forall j :: 0 <= j < k ==> xs[j] < xs[k]
    {
      if xs[i] > xs[k] {
        k := i;
      }
      i := i + 1;
    }
  }

  /** `r` is the optimum over `grid`: a grid price with its floored demand
      and revenue, no grid price earns more, and every earlier grid price
      earns strictly less. */
  predicate IsOptimal(curve: int -> int, grid: seq<int>, r: PricingResult) {
    && (exists k :: 0 <= k < |grid| && grid[k] == r.price
          && (forall j :: 0 <= j < k ==> RevenueAt(curve, grid[j]) < r.revenue))
    && r.demand == DemandAt(curve, r.price)
    && r.revenue == r.price * r.demand
    && (forall p :: p in grid ==> RevenueAt(curve, p) <= r.revenue)
  }

  /** On an increasing grid the optimum is unique: the optimiser is a
      function of the demand curve and the grid. */
  lemma OptimalIsUnique(curve: int -> int, grid: seq<int>, r1: PricingResult, r2: PricingResult)
    requires forall i, j :: 0 <= i < j < |grid| ==> grid[i] < grid[j]
    requires IsOptimal(curve, grid, r1) && IsOptimal(curve, grid, r2)
    ensures r1 == r2
  {
    var k1 :| 0 <= k1 < |grid| && grid[k1] == r1.price
              && (forall j :: 0 <= j < k1 ==> RevenueAt(curve, grid[j]) < r1.revenue);
    var k2 :| 0 <= k2 < |grid| && grid[k2] == r2.price
              && (forall j :: 0 <= j < k2 ==> RevenueAt(curve, grid[j]) < r2.revenue);
    assert RevenueAt(curve, grid[k1]) == r1.revenue;
    assert RevenueAt(curve, grid[k2]) == r2.revenue;
    assert grid[k1] in grid && grid[k2] in grid;
    if k1 < k2 {
      assert false;
    } else if k2 < k1 {
      assert false;
    }
  }

  lemma RevenueLowerBound(price: int, demand: int)
    requires price >= 10000 && demand >= DemandFloor
    ensures price * demand >= 100000
  {
    assert price * demand >= 10000 * demand;
  }

  /** The optimal price, demand and revenue of a flight. Revenue is at least
      10000 yen times 10 passengers, so it is always positive. */
  method CalculateOptimalRevenue(curve: int -> int, routeType: string, flightMinutes: int)
    returns (r: PricingResult)
    ensures IsOptimal(curve, PriceGrid(GetPriceRange(flightMinutes, routeType)), r)
    ensures var range := GetPriceRange(flightMinutes, routeType);
            range.low <= r.price <= range.high && r.price % PriceStep == 0
    ensures r.demand >= DemandFloor && r.revenue >= 100000
  {
    var range := GetPriceRange(flightMinutes, routeType);
    var prices := PriceGrid(range);
    TableGridsAreExact(flightMinutes, routeType);
    var demands := seq(|prices|, i requires 0 <= i < |prices| => DemandAt(curve, prices[i]));
    var revenues := seq(|prices|, i requires 0 <= i < |prices| => prices[i] * demands[i]);
    var k := Argmax(revenues);
    r := PricingResult(prices[k], demands[k], revenues[k]);
    forall p | p in prices
      ensures RevenueAt(curve, p) <= r.revenue
    {
      var j :| 0 <= j < |prices| && prices[j] == p;
      assert revenues[j] == RevenueAt(curve, p);
    }
    forall j | 0 <= j < k
      ensures RevenueAt(curve, prices[j]) < r.revenue
    {
      assert revenues[j] == RevenueAt(curve, prices[j]);
    }
    assert prices[k] in prices;
    RevenueLowerBound(r.price, r.demand);
  }
}
