/** The round-trip priority normalizer: the ground gap between an outbound
    leg's arrival (plus post-flight time) and the inbound leg's departure
    (less pre-flight time), a four-band resource-waste score of that gap,
    the mean of the two legs' priority indices, and their weighted score on
    0..100. The weights are parameters; airline_08's are derived by the
    weight generator. Times and day labels are parsed as JavaScript does,
    and an unparsable one makes the gap NaN (`None`). */
module RoundTripScorer {
  import opened Common
  import opened Text
  import Profiles
  import WeightDerivation

  /** One leg as the normalizer receives it. */
  datatype FlightData = FlightData(
    dateLabel: string,
    departureTime: string,
    flightMinutes: int,
    priorityIndex: real,
    preFlightMinutes: int,
    postFlightMinutes: int)

  datatype NormalizedResult = NormalizedResult(
    score: int,
    gapHours: Option<real>,
    resourceWasteScore: real,
    combinedPriority: real)

  /** The two weights, priority first. */
  datatype Weights = Weights(priorityWeight: real, resourceWasteWeight: real)

  predicate ValidWeights(w: Weights) {
    w.priorityWeight >= 0.0 && w.resourceWasteWeight >= 0.0 && w.priorityWeight + w.resourceWasteWeight == 1.0
  }

  /** airline_08's constants. */
  const Airline08Weights: Weights := Weights(0.759, 0.241)

  /** The constants are the weights the generator derives from airline_08's
      profile, and they are valid. */
  lemma Airline08WeightsDerived()
    ensures WeightDerivation.CalculateWeights(Profiles.Airline08)
            == (Airline08Weights.resourceWasteWeight, Airline08Weights.priorityWeight)
    ensures ValidWeights(Airline08Weights)
  {
    WeightDerivation.Airline08Weights();
  }

  /** `split(":").map(Number)`, then `hours * 60 + minutes`; a missing or
      unparsable part is NaN. */
  function TimeStringToMinutes(timeStr: string): (r: Option<int>)
    ensures var parts := Split(timeStr, ':');
            r.Some? <==> |parts| >= 2 && JsNumber(parts[0]).Some? && JsNumber(parts[1]).Some?
  {
    var parts := Split(timeStr, ':');
    if |parts| < 2 then None
    else
      match (JsNumber(parts[0]), JsNumber(parts[1]))
      case (Some(h), Some(m)) => Some(h * 60 + m)
      case _ => None
  }

  /** Reading an `HH:MM` time back gives the minute of the day it was
      written from. */
  lemma TimeStringOfFormat(m: int)
    requires 0 <= m < 1440
    ensures TimeStringToMinutes(FormatHHMM(m)) == Some(m)
  {
    var h := Pad2(m / 60);
    var mm := Pad2(m % 60);
    assert FormatHHMM(m) == h + [':'] + mm;
    assert ':' !in h by {
      assert IsDigit(h[0]) && IsDigit(h[1]);
    }
    assert ':' !in mm by {
      assert IsDigit(mm[0]) && IsDigit(mm[1]);
    }
    SplitNoSeparator(h, ':', mm);
    SplitWhole(mm, ':');
    ParsePad2(m / 60);
    ParsePad2(m % 60);
  }

  lemma FourteenThirty()
    ensures TimeStringToMinutes("14:30") == Some(870)
  {
    assert FormatHHMM(870) == "14:30";
    TimeStringOfFormat(870);
  }

  /** `parseInt(label.replace("日", ""))`: the first `日` is removed. */
  function DayNumber(dateLabel: string): (r: Option<int>)
    ensures var rest := ReplaceFirst(dateLabel, "日", "");
            r.Some? <==> |rest| > 0 && IsDigit(rest[0])
    ensures r.Some? ==> r.value >= 0
  {
    ParseLeadingInt(ReplaceFirst(dateLabel, "日", ""))
  }

  /** A label written as `"{n}日"` reads back as `n`. */
  lemma DayNumberOfLabel(n: nat)
    ensures DayNumber(NatToString(n) + "日") == Some(n)
  {
    var digits := NatToString(n);
    assert '日' !in digits;
    StripSuffixChar(digits, '日');
    LeadingDigitsOfDigits(digits);
    DigitsValueOfNatToString(n);
  }

  /** The ground gap in minutes: inbound required time minus outbound
      available time, across the day difference. */
  function GapMinutes(outbound: FlightData, inbound: FlightData): (r: Option<int>)
    ensures r.Some? <==>
              && DayNumber(outbound.dateLabel).Some? && DayNumber(inbound.dateLabel).Some?
              && TimeStringToMinutes(outbound.departureTime).Some?
              && TimeStringToMinutes(inbound.departureTime).Some?
  {
    match (DayNumber(outbound.dateLabel), DayNumber(inbound.dateLabel),
           TimeStringToMinutes(outbound.departureTime), TimeStringToMinutes(inbound.departureTime))
    case (Some(outDay), Some(inDay), Some(outDep), Some(inDep)) =>
      var available := outDep + outbound.flightMinutes + outbound.postFlightMinutes;
      var required := inDep - inbound.preFlightMinutes;
      Some((inDay - outDay) * 24 * 60 + (required - available))
    case _ => None
  }

  /** Minutes since the start of day 0. */
  function Instant(day: int, minute: int): int {
    day * 1440 + minute
  }

  /** For legs written as `"{d}日"` and `HH:MM`, the gap is the time from
      the moment the aircraft is free after the outbound leg to the moment
      it must be ready for the inbound leg. */
  lemma GapIsElapsedTime(outbound: FlightData, inbound: FlightData, outDay: nat, inDay: nat, outDep: int, inDep: int)
    requires 0 <= outDep < 1440 && 0 <= inDep < 1440
    requires outbound.dateLabel == NatToString(outDay) + "日" && inbound.dateLabel == NatToString(inDay) + "日"
    requires outbound.departureTime == FormatHHMM(outDep) && inbound.departureTime == FormatHHMM(inDep)
    ensures GapMinutes(outbound, inbound)
            == Some(Instant(inDay, inDep - inbound.preFlightMinutes)
                    - Instant(outDay, outDep + outbound.flightMinutes + outbound.postFlightMinutes))
  {
    DayNumberOfLabel(outDay);
    DayNumberOfLabel(inDay);
    TimeStringOfFormat(outDep);
    TimeStringOfFormat(inDep);
  }

  /** Moving both legs by the same number of days `k` leaves the gap as
      it was: it depends on the two days only through their difference. */
  lemma GapShiftInvariant(outbound: FlightData, inbound: FlightData, outDay: nat, inDay: nat, k: nat, outDep: int, inDep: int)
    requires 0 <= outDep < 1440 && 0 <= inDep < 1440
    requires outbound.departureTime == FormatHHMM(outDep) && inbound.departureTime == FormatHHMM(inDep)
    requires outbound.dateLabel == NatToString(outDay + k) + "日" && inbound.dateLabel == NatToString(inDay + k) + "日"
    ensures GapMinutes(outbound, inbound)
            == Some(Instant(inDay, inDep - inbound.preFlightMinutes)
                    - Instant(outDay, outDep + outbound.flightMinutes + outbound.postFlightMinutes))
  {
    var outDay', inDay' := outDay + k, inDay + k;
    GapIsElapsedTime(outbound, inbound, outDay', inDay', outDep, inDep);
  }

  /** `totalGapMinutes / 60`, NaN when the gap is. */
  function GapHours(outbound: FlightData, inbound: FlightData): (r: Option<real>)
    ensures r.Some? <==> GapMinutes(outbound, inbound).Some?
    ensures r.Some? ==> r.value * 60.0 == GapMinutes(outbound, inbound).value as real
  {
    match GapMinutes(outbound, inbound)
    case Some(g) => Some(g as real / 60.0)
    case None => None
  }

  /** The waste score: 1.0 up to 4 hours, 0.8 up to 8, 0.5 up to 16, else
      0.2; every comparison with NaN is false, so NaN scores 0.2. */
  function ResourceWasteScore(gapHours: Option<real>): (r: real)
    ensures r == 1.0 || r == 0.8 || r == 0.5 || r == 0.2
    ensures gapHours.None? ==> r == 0.2
  {
    match gapHours
    case None => 0.2
    case Some(h) =>
      if h <= 4.0 then 1.0
      else if h <= 8.0 then 0.8
      else if h <= 16.0 then 0.5
      else 0.2
  }

  /** In whole minutes the bands are upper-inclusive at 240, 480 and 960. */
  lemma WasteBandsInMinutes(g: int)
    ensures g <= 240 <==> ResourceWasteScore(Some(g as real / 60.0)) == 1.0
    ensures 240 < g <= 480 <==> ResourceWasteScore(Some(g as real / 60.0)) == 0.8
    ensures 480 < g <= 960 <==> ResourceWasteScore(Some(g as real / 60.0)) == 0.5
    ensures 960 < g <==> ResourceWasteScore(Some(g as real / 60.0)) == 0.2
  {
  }

  lemma WasteBoundary()
    ensures ResourceWasteScore(Some(240 as real / 60.0)) == 1.0
    ensures ResourceWasteScore(Some(241 as real / 60.0)) == 0.8
  {
    WasteBandsInMinutes(240);
    WasteBandsInMinutes(241);
  }

  /** A longer gap never scores better; an infeasible negative gap falls in
      the best band. */
  lemma WasteScoreNonIncreasing(h1: real, h2: real)
    requires h1 <= h2
    ensures ResourceWasteScore(Some(h2)) <= ResourceWasteScore(Some(h1))
    ensures h1 < 0.0 ==> ResourceWasteScore(Some(h1)) == 1.0
  {
  }

  /** The mean of the two indices on 0..1. */
  function CombinedPriority(outboundIndex: real, inboundIndex: real): (c: real)
    ensures 0.0 <= outboundIndex <= 100.0 && 0.0 <= inboundIndex <= 100.0 ==> 0.0 <= c <= 1.0
    ensures c * 200.0 == outboundIndex + inboundIndex
  {
    (outboundIndex / 100.0 + inboundIndex / 100.0) / 2.0
  }

  /** `Math.round((priorityWeight * combined + wasteWeight * waste) * 100)`. */
  function FinalScore(w: Weights, combined: real, waste: real): (s: int)
    ensures var exact := (w.priorityWeight * combined + w.resourceWasteWeight * waste) * 100.0;
            s as real - 0.5 <= exact < s as real + 0.5
  {
    RoundHalfUp((w.priorityWeight * combined + w.resourceWasteWeight * waste) * 100.0)
  }

  /** With valid weights and both inputs on 0..1 the score lies in 0..100. */
  lemma FinalScoreInRange(w: Weights, combined: real, waste: real)
    requires ValidWeights(w)
    requires 0.0 <= combined <= 1.0 && 0.0 <= waste <= 1.0
    ensures 0 <= FinalScore(w, combined, waste) <= 100
  {
    WeightedMeanInUnit(w.priorityWeight, w.resourceWasteWeight, combined, waste);
  }

  /** A weighted mean of two values in [0, 1] is in [0, 1]. */
  lemma WeightedMeanInUnit(a: real, b: real, x: real, y: real)
    requires a >= 0.0 && b >= 0.0 && a + b == 1.0
    requires 0.0 <= x <= 1.0 && 0.0 <= y <= 1.0
    ensures 0.0 <= a * x + b * y <= 1.0
  {
    NonnegativeProduct(a, x);
    NonnegativeProduct(b, y);
    NonnegativeProduct(a, 1.0 - x);
    NonnegativeProduct(b, 1.0 - y);
    assert a * (1.0 - x) + b * (1.0 - y) == 1.0 - (a * x + b * y);
  }

  lemma NonnegativeProduct(a: real, b: real)
    requires a >= 0.0 && b >= 0.0
    ensures a * b >= 0.0
  {
  }

  /** The normalizer: gap, waste score, combined priority and score. */
  function NormalizeRoundTripPriority(w: Weights, outbound: FlightData, inbound: FlightData): (r: NormalizedResult)
    ensures r.gapHours == GapHours(outbound, inbound)
    ensures r.resourceWasteScore == ResourceWasteScore(r.gapHours)
    ensures r.combinedPriority * 200.0 == outbound.priorityIndex + inbound.priorityIndex
    ensures ValidWeights(w) && 0.0 <= outbound.priorityIndex <= 100.0 && 0.0 <= inbound.priorityIndex <= 100.0
            ==> 0 <= r.score <= 100
    ensures r.score == FinalScore(w, r.combinedPriority, r.resourceWasteScore)
  {
    var gapHours := GapHours(outbound, inbound);
    var waste := ResourceWasteScore(gapHours);
    var combined := CombinedPriority(outbound.priorityIndex, inbound.priorityIndex);
    var score := FinalScore(w, combined, waste);
    var r := NormalizedResult(score, gapHours, waste, combined);
    if ValidWeights(w) && 0.0 <= combined <= 1.0 && 0.0 <= waste <= 1.0 then
      FinalScoreInRange(w, combined, waste);
      r
    else
      r
  }

  /** A malformed time still yields a score: the gap is NaN and the waste
      score falls to its lowest band. */
  lemma MalformedTimeStillScores(w: Weights, outbound: FlightData, inbound: FlightData)
    requires TimeStringToMinutes(outbound.departureTime).None?
    ensures NormalizeRoundTripPriority(w, outbound, inbound).gapHours.None?
    ensures NormalizeRoundTripPriority(w, outbound, inbound).resourceWasteScore == 0.2
  {
  }

  /** Among legs with the same indices, a shorter ground gap never scores
      lower. */
  lemma ShorterGapScoresNoLower(w: Weights, combined: real, h1: real, h2: real)
    requires ValidWeights(w) && h1 <= h2
    ensures FinalScore(w, combined, ResourceWasteScore(Some(h2))) <= FinalScore(w, combined, ResourceWasteScore(Some(h1)))
  {
    WasteScoreNonIncreasing(h1, h2);
    var a := ResourceWasteScore(Some(h2));
    var b := ResourceWasteScore(Some(h1));
    MulLeftMonotone(w.resourceWasteWeight, a, b);
    assert (w.priorityWeight * combined + w.resourceWasteWeight * a) * 100.0
        <= (w.priorityWeight * combined + w.resourceWasteWeight * b) * 100.0;
  }
}
