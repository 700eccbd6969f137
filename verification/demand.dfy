/** The demand baseline of a candidate slot: base demand scaled by brand
    recognition, the route type's focus and a time-of-day multiplier drawn
    from a band keyed by the departure hour, truncated to an integer. */
module Demand {
  import opened Common
  import opened Text
  import Routes

  /** A closed interval `[low, high]` a multiplier is drawn from. */
  datatype Band = Band(low: real, high: real)

  predicate IsPeakHour(hour: int) {
    hour in {8, 9, 17, 18, 19}
  }

  predicate IsShoulderHour(hour: int) {
    hour in {7, 22}
  }

  /** The multiplier band for a departure hour. */
  function TimeMultiplierBand(hour: int): (b: Band)
    ensures 0.7 <= b.low < b.high <= 1.3
    ensures IsPeakHour(hour) ==> b == Band(1.1, 1.3)
    ensures IsShoulderHour(hour) ==> b == Band(0.7, 0.9)
    ensures !IsPeakHour(hour) && !IsShoulderHour(hour) ==> b == Band(0.9, 1.1)
  {
    if IsPeakHour(hour) then Band(1.1, 1.3)
    else if IsShoulderHour(hour) then Band(0.7, 0.9)
    else Band(0.9, 1.1)
  }

  /** The band for an `HH:MM` departure time; the hour is `int(time.split(":")[0])`,
      so an unparsable hour is an error (`None`). */
  function TimeMultiplierBandFor(departureTime: string): (r: Option<Band>)
    ensures r.Some? <==> ParseNat(Split(departureTime, ':')[0]).Some?
  {
    match ParseNat(Split(departureTime, ':')[0])
    case Some(hour) => Some(TimeMultiplierBand(hour))
    case None => None
  }

  /** Every generated departure time parses back to its hour, so the i-th
      one is given the band of hour `7 + i / 2`. */
  lemma DepartureBand(i: int)
    requires 0 <= i < 32
    ensures TimeMultiplierBandFor(Routes.DepartureTimes()[i]) == Some(TimeMultiplierBand(7 + i / 2))
  {
    var h := Pad2(7 + i / 2);
    var mm := Pad2(30 * (i % 2));
    assert Routes.DepartureTimes()[i] == h + [':'] + mm;
    assert ':' !in h by {
      assert IsDigit(h[0]) && IsDigit(h[1]);
    }
    assert ':' !in mm by {
      assert IsDigit(mm[0]) && IsDigit(mm[1]);
    }
    SplitNoSeparator(h, ':', mm);
    ParsePad2(7 + i / 2);
  }

  /** Peak bands lie above ordinary bands, which lie above shoulder bands. */
  lemma BandsOrdered(peak: int, ordinary: int, shoulder: int)
    requires IsPeakHour(peak) && IsShoulderHour(shoulder)
    requires !IsPeakHour(ordinary) && !IsShoulderHour(ordinary)
    ensures TimeMultiplierBand(shoulder).high <= TimeMultiplierBand(ordinary).low
    ensures TimeMultiplierBand(ordinary).high <= TimeMultiplierBand(peak).low
  {
  }

  /** Python's `int(x)` on a float: truncation toward zero. */
  function Truncate(x: real): (r: int)
    ensures x >= 0.0 ==> r >= 0 && r as real <= x < r as real + 1.0
    ensures x < 0.0 ==> r <= 0 && r as real - 1.0 < x <= r as real
  {
    if x >= 0.0 then x.Floor else -((-x).Floor)
  }

  /** Python's `int` truncation never reverses the order of two values. */
  lemma TruncateMonotone(x: real, y: real)
    requires x <= y
    ensures Truncate(x) <= Truncate(y)
  {
  }

  lemma TruncateMonotone3(x: real, y: real, z: real)
    requires x <= y <= z
    ensures Truncate(x) <= Truncate(y) <= Truncate(z)
  {
    TruncateMonotone(x, y);
    TruncateMonotone(y, z);
  }

  /** The focus value the route type selects: international focus for
      `"international"`, domestic focus for any other type. */
  function FocusFor(routeType: string, internationalFocus: real, domesticFocus: real): (f: real)
    ensures routeType == "international" ==> f == internationalFocus
    ensures routeType != "international" ==> f == domesticFocus
  {
    if routeType == "international" then internationalFocus else domesticFocus
  }

  /** `base_demand * brand * focus`, the part of the baseline that does not
      depend on the departure time. */
  function DemandScale(baseDemand: int, brand: real, focus: real): real {
    baseDemand as real * brand * focus
  }

  /** `int(base_demand * brand * focus * multiplier)`, the demand baseline
      of one candidate slot. */
  function DemandBaseline(baseDemand: int, brand: real, focus: real, multiplier: real): (r: int)
  {
    Truncate(DemandScale(baseDemand, brand, focus) * multiplier)
  }

  lemma DemandScaleNonnegative(baseDemand: int, brand: real, focus: real)
    requires baseDemand >= 0 && brand >= 0.0 && focus >= 0.0
    ensures DemandScale(baseDemand, brand, focus) >= 0.0
  {
    MulLeftMonotone(baseDemand as real, 0.0, brand);
    MulLeftMonotone(baseDemand as real * brand, 0.0, focus);
  }

  lemma TruncatedProductWithinBand(p: real, band: Band, multiplier: real)
    requires p >= 0.0 && band.low <= multiplier <= band.high
    ensures Truncate(p * band.low) <= Truncate(p * multiplier) <= Truncate(p * band.high)
  {
    MulLeftMonotone(p, band.low, multiplier);
    MulLeftMonotone(p, multiplier, band.high);
    TruncateMonotone3(p * band.low, p * multiplier, p * band.high);
  }

  /** With non-negative factors the baseline is the product rounded down to
      a whole number of passengers. */
  lemma BaselineTruncatesProduct(baseDemand: int, brand: real, focus: real, multiplier: real)
    requires baseDemand >= 0 && brand >= 0.0 && focus >= 0.0 && multiplier >= 0.0
    ensures var b := DemandBaseline(baseDemand, brand, focus, multiplier);
            var x := DemandScale(baseDemand, brand, focus) * multiplier;
            0 <= b && b as real <= x < b as real + 1.0
  {
    DemandScaleNonnegative(baseDemand, brand, focus);
    MulLeftMonotone(DemandScale(baseDemand, brand, focus), 0.0, multiplier);
  }

  /** With non-negative factors, a multiplier drawn from its band gives a
      baseline between the baselines at the band's two ends. */
  lemma BaselineWithinBand(baseDemand: int, brand: real, focus: real, band: Band, multiplier: real)
    requires baseDemand >= 0 && brand >= 0.0 && focus >= 0.0
    requires band.low <= multiplier <= band.high
    ensures DemandBaseline(baseDemand, brand, focus, band.low)
            <= DemandBaseline(baseDemand, brand, focus, multiplier)
            <= DemandBaseline(baseDemand, brand, focus, band.high)
  {
    var p := DemandScale(baseDemand, brand, focus);
    DemandScaleNonnegative(baseDemand, brand, focus);
    TruncatedProductWithinBand(p, band, multiplier);
    assert DemandBaseline(baseDemand, brand, focus, band.low) == Truncate(p * band.low);
    assert DemandBaseline(baseDemand, brand, focus, multiplier) == Truncate(p * multiplier);
    assert DemandBaseline(baseDemand, brand, focus, band.high) == Truncate(p * band.high);
  }
}
