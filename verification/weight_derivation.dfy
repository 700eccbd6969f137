/** Per-airline weights of the round-trip score: a linear "resource
    abundance" of the profile, a waste weight falling with abundance and
    clamped to [0.10, 0.30], its complement as the priority weight, both
    rounded to three decimals; and the airline's one-line description. */
module WeightDerivation {
  import opened Common
  import opened Text
  import opened Profiles

  const MinWasteWeight: real := 0.10
  const MaxWasteWeight: real := 0.30

  /** The average of the route-count range, `(10, 20)` when absent. */
  function RouteCountAverage(profile: Profile): real {
    var (lo, hi) := profile.routeCountRange.GetOr((10, 20));
    (lo + hi) as real / 2.0
  }

  /** The number of operation scales offered, 0 when absent. */
  function ScaleScore(profile: Profile): nat {
    |profile.operationScales.GetOr([])|
  }

  /** Abundance from its four ingredients: brand 30%, demand out of 200
      30%, scale count out of 3 25%, average route count out of 35 15%. */
  function AbundanceOf(brand: real, baseDemand: int, scaleScore: nat, routeCountAvg: real): real {
    brand * 0.3 + (baseDemand as real / 200.0) * 0.3 + (scaleScore as real / 3.0) * 0.25 + (routeCountAvg / 35.0) * 0.15
  }

  function ResourceAbundance(profile: Profile): real {
    AbundanceOf(profile.brandRecognition.GetOr(0.5), profile.baseDemand.GetOr(100),
                ScaleScore(profile), RouteCountAverage(profile))
  }

  /** The waste weight: `0.35 - 0.2 * abundance`, clamped to [0.10, 0.30]. */
  function WasteWeightOf(abundance: real): (w: real)
    ensures MinWasteWeight <= w <= MaxWasteWeight
  {
    Clamp(MinWasteWeight, MaxWasteWeight, 0.35 - abundance * 0.2)
  }

  /** The unrounded pair (waste, priority): the priority weight is the
      complement, so the two always sum to 1 and priority lies in [0.7, 0.9]. */
  function UnroundedWeights(profile: Profile): (r: (real, real))
    ensures MinWasteWeight <= r.0 <= MaxWasteWeight
    ensures r.0 + r.1 == 1.0
    ensures 0.7 <= r.1 <= 0.9
  {
    var waste := WasteWeightOf(ResourceAbundance(profile));
    (waste, 1.0 - waste)
  }

  /** More abundance never means more waste weight. */
  lemma WasteWeightAntitone(a1: real, a2: real)
    requires a1 <= a2
    ensures WasteWeightOf(a2) <= WasteWeightOf(a1)
  {
    ClampMonotone(MinWasteWeight, MaxWasteWeight, 0.35 - a2 * 0.2, 0.35 - a1 * 0.2);
  }

  /** Raising any of brand, demand, scale count or average route count,
      the others fixed, never raises the waste weight. */
  lemma WasteWeightNonIncreasing(brand1: real, demand1: int, scales1: nat, avg1: real,
                                 brand2: real, demand2: int, scales2: nat, avg2: real)
    requires brand1 <= brand2 && demand1 <= demand2 && scales1 <= scales2 && avg1 <= avg2
    ensures WasteWeightOf(AbundanceOf(brand2, demand2, scales2, avg2))
         <= WasteWeightOf(AbundanceOf(brand1, demand1, scales1, avg1))
  {
    WasteWeightAntitone(AbundanceOf(brand1, demand1, scales1, avg1), AbundanceOf(brand2, demand2, scales2, avg2));
  }

  /** Missing keys default to brand 0.5, demand 100, no scales and range
      (10, 20), averaging 15; a profile listing `connected_airports` but
      no route-count range also averages 15. */
  lemma DefaultsApply(profile: Profile)
    requires profile.brandRecognition.None? && profile.baseDemand.None?
    requires profile.operationScales.None? && profile.routeCountRange.None?
    ensures RouteCountAverage(profile) == 15.0
    ensures ResourceAbundance(profile) == 0.5 * 0.3 + 0.5 * 0.3 + (15.0 / 35.0) * 0.15
  {
  }

  /** A profile without a route-count range averages the default (10, 20). */
  lemma MissingRouteRangeAveragesFifteen(profile: Profile)
    requires profile.routeCountRange.None?
    ensures RouteCountAverage(profile) == 15.0
  {
  }

  /** `connected_airports` plays no part in the weights: two profiles that
      differ only there get the same weights. */
  lemma ConnectedAirportsIgnored(p: Profile, q: Profile)
    requires p.(connectedAirports := q.connectedAirports) == q
    ensures CalculateWeights(p) == CalculateWeights(q)
  {
    assert ResourceAbundance(p) == ResourceAbundance(q);
  }

  /** Rounding half to even commutes with reflection about an even integer. */
  lemma RoundHalfEvenReflect(n: int, y: real)
    requires n % 2 == 0
    ensures RoundHalfEven(n as real - y) == n - RoundHalfEven(y)
  {
  }

  /** `round(x, 3)` on each weight, as the generator returns them. */
  function CalculateWeights(profile: Profile): (r: (real, real))
    ensures MinWasteWeight <= r.0 <= MaxWasteWeight
    ensures r.0 + r.1 == 1.0
    ensures -0.0005 <= r.0 - UnroundedWeights(profile).0 <= 0.0005
    ensures -0.0005 <= r.1 - UnroundedWeights(profile).1 <= 0.0005
  {
    var (waste, priority) := UnroundedWeights(profile);
    RoundedWasteBounds(waste);
    RoundHalfEvenReflect(1000, waste * 1000.0);
    assert priority * 1000.0 == 1000.0 - waste * 1000.0;
    (RoundThousandths(waste), RoundThousandths(priority))
  }

  lemma RoundedWasteBounds(waste: real)
    requires MinWasteWeight <= waste <= MaxWasteWeight
    ensures MinWasteWeight <= RoundThousandths(waste) <= MaxWasteWeight
  {
    RoundHalfEvenMonotone(100.0, waste * 1000.0);
    RoundHalfEvenMonotone(waste * 1000.0, 300.0);
    assert RoundHalfEven(100.0) == 100;
    assert RoundHalfEven(300.0) == 300;
  }

  /** airline_08's weights: waste 0.241 and priority 0.759. */
  lemma Airline08Weights()
    ensures CalculateWeights(Airline08) == (0.241, 0.759)
  {
    var waste := UnroundedWeights(Airline08).0;
    assert ResourceAbundance(Airline08) == 0.165 + 0.1275 + 0.25 * 2.0 / 3.0 + 0.15 * 20.0 / 35.0;
    assert 240.6 <= waste * 1000.0 <= 241.4;
    assert RoundHalfEven(waste * 1000.0) == 241;
  }

  /** Every piece of `parts` followed by `sep`, except the last: `sep.join(parts)`. */
  function Join(sep: char, parts: seq<string>): string
    decreases |parts|
  {
    if |parts| == 0 then ""
    else if |parts| == 1 then parts[0]
    else parts[0] + [sep] + Join(sep, parts[1..])
  }

  /** Splitting what was joined on a separator the parts do not contain
      gives the parts back. */
  lemma {:induction false} SplitJoin(sep: char, parts: seq<string>)
    requires |parts| > 0
    requires forall i :: 0 <= i < |parts| ==> sep !in parts[i]
    ensures Split(Join(sep, parts), sep) == parts
  {
    if |parts| == 1 {
      SplitWhole(parts[0], sep);
    } else {
      SplitJoin(sep, parts[1..]);
      SplitNoSeparator(parts[0], sep, Join(sep, parts[1..]));
    }
  }

  const ScaleSuffix: string := "規模運航"

  /** The size word: three scales make a large airline, two a medium one,
      any other count a small one. */
  function SizeDescription(scaleCount: nat): (d: string)
    ensures scaleCount == 3 <==> d == "대형 항공사"
    ensures scaleCount == 2 <==> d == "중형 항공사"
    ensures scaleCount != 2 && scaleCount != 3 <==> d == "소형 항공사"
  {
    if scaleCount == 3 then "대형 항공사"
    else if scaleCount == 2 then "중형 항공사"
    else "소형 항공사"
  }

  /** The scale names with `規模運航` removed, joined with `/`. */
  function ScaleDescription(scales: seq<string>): string {
    Join('/', StrippedScales(scales))
  }

  function StrippedScales(scales: seq<string>): (r: seq<string>)
    ensures |r| == |scales|
    ensures forall i :: 0 <= i < |scales| ==> r[i] == ReplaceAll(scales[i], ScaleSuffix, "")
  {
    seq(|scales|, i requires 0 <= i < |scales| => ReplaceAll(scales[i], ScaleSuffix, ""))
  }

  /** `"{airline_id} ({scale_desc} 규모 보유 - {size_desc})"`: the id, then
      the scale part between `" ("` and the size part; a profile without
      scales has an empty scale part and is a small airline. */
  function GetAirlineDescription(airlineId: string, profile: Profile): (d: string)
    ensures var scales := profile.operationScales.GetOr([]);
            var head := airlineId + " (";
            var tail := " 규모 보유 - " + SizeDescription(|scales|) + ")";
            && |d| == |head| + |ScaleDescription(scales)| + |tail|
            && d[..|head|] == head
            && d[|head|..|d| - |tail|] == ScaleDescription(scales)
            && d[|d| - |tail|..] == tail
    ensures profile.operationScales.None? ==> d == airlineId + " ( 규모 보유 - 소형 항공사)"
  {
    var scales := profile.operationScales.GetOr([]);
    var head := airlineId + " (";
    var tail := " 규모 보유 - " + SizeDescription(|scales|) + ")";
    ThreeParts(head, ScaleDescription(scales), tail);
    if profile.operationScales.None? then
      NoScalesDescription(airlineId);
      head + ScaleDescription(scales) + tail
    else
      head + ScaleDescription(scales) + tail
  }

  /** A string built from three parts can be cut back into them. */
  lemma ThreeParts(head: string, middle: string, tail: string)
    ensures var s := head + middle + tail;
            && |s| == |head| + |middle| + |tail|
            && s[..|head|] == head
            && s[|head|..|s| - |tail|] == middle
            && s[|s| - |tail|..] == tail
  {
    var s := head + middle + tail;
    assert s[..|head|] == head;
    assert s[|head|..|s| - |tail|] == middle;
  }

  lemma NoScalesDescription(airlineId: string)
    ensures airlineId + " (" + ScaleDescription([]) + (" 규모 보유 - " + SizeDescription(0) + ")")
            == airlineId + " ( 규모 보유 - 소형 항공사)"
  {
    assert " (" + (" 규모 보유 - " + "소형 항공사" + ")") == " ( 규모 보유 - 소형 항공사)";
    assert ScaleDescription([]) == "";
    assert airlineId + " (" + "" == airlineId + " (";
  }

  /** A one-character prefix followed by the suffix loses the suffix. */
  lemma StripScaleSuffix(c: char)
    requires c != ScaleSuffix[0]
    ensures ReplaceAll([c] + ScaleSuffix, ScaleSuffix, "") == [c]
  {
    var s := [c] + ScaleSuffix;
    assert s[..|ScaleSuffix|] != ScaleSuffix;
    assert s[1..] == ScaleSuffix;
    assert s[1..][..|ScaleSuffix|] == ScaleSuffix;
    assert s[1..][|ScaleSuffix|..] == "";
  }

  /** A scale key: one character, neither `/` nor the suffix's first,
      followed by `規模運航`. */
  predicate IsScaleKey(name: string) {
    |name| == 1 + |ScaleSuffix| && name[1..] == ScaleSuffix && name[0] != ScaleSuffix[0] && name[0] != '/'
  }

  /** The first character of each name, as a one-character string (an
      empty name stays empty). */
  function Initials(names: seq<string>): seq<string> {
    seq(|names|, i requires 0 <= i < |names| => if |names[i]| > 0 then names[i][..1] else "")
  }

  /** Scale keys strip to their first character. */
  lemma StrippedScaleKeys(scales: seq<string>)
    requires forall i :: 0 <= i < |scales| ==> IsScaleKey(scales[i])
    ensures StrippedScales(scales) == Initials(scales)
  {
    forall i | 0 <= i < |scales|
      ensures StrippedScales(scales)[i] == Initials(scales)[i]
    {
      var c := scales[i][0];
      assert IsScaleKey(scales[i]);
      assert scales[i] == [c] + ScaleSuffix;
      StripScaleSuffix(c);
    }
  }

  /** Whenever no stripped name contains `/`, splitting the scale part on
      `/` gives the stripped names back. */
  lemma ScaleDescriptionReadsBack(scales: seq<string>)
    requires |scales| > 0
    requires forall i :: 0 <= i < |scales| ==> '/' !in StrippedScales(scales)[i]
    ensures Split(ScaleDescription(scales), '/') == StrippedScales(scales)
  {
    SplitJoin('/', StrippedScales(scales));
  }

  /** The scale part of a description, split on `/`, lists the profile's
      scale keys each reduced to its first character. */
  lemma DescriptionReadsBack(airlineId: string, profile: Profile)
    requires profile.operationScales.Some? && |profile.operationScales.value| > 0
    requires forall i :: 0 <= i < |profile.operationScales.value| ==> IsScaleKey(profile.operationScales.value[i])
    ensures var scales := profile.operationScales.value;
            var d := GetAirlineDescription(airlineId, profile);
            var head := airlineId + " (";
            var tail := " 규모 보유 - " + SizeDescription(|scales|) + ")";
            Split(d[|head|..|d| - |tail|], '/') == Initials(scales)
  {
    var scales := profile.operationScales.value;
    StrippedScaleKeys(scales);
    assert forall i :: 0 <= i < |scales| ==> IsScaleKey(scales[i]) && Initials(scales)[i] == [scales[i][0]];
    ScaleDescriptionReadsBack(scales);
  }

  lemma Airline08Scales()
    ensures ScaleDescription(Airline08.operationScales.value) == "中/小"
  {
    StripScaleSuffix('中');
    StripScaleSuffix('小');
    assert MediumScaleKey == ['中'] + ScaleSuffix;
    assert SmallScaleKey == ['小'] + ScaleSuffix;
    assert StrippedScales([MediumScaleKey, SmallScaleKey]) == ["中", "小"];
    assert ["中", "小"][1..] == ["小"];
  }

  /** The description assembled from its two parts. */
  lemma DescriptionParts(airlineId: string, profile: Profile, scaleDesc: string, sizeDesc: string)
    requires ScaleDescription(profile.operationScales.GetOr([])) == scaleDesc
    requires SizeDescription(|profile.operationScales.GetOr([])|) == sizeDesc
    ensures GetAirlineDescription(airlineId, profile) == airlineId + " (" + scaleDesc + " 규모 보유 - " + sizeDesc + ")"
  {
  }

  /** airline_08 is described as a medium airline with the 中 and 小 scales. */
  lemma Airline08Description()
    ensures GetAirlineDescription("airline_08", Airline08) == "airline_08 (中/小 규모 보유 - 중형 항공사)"
  {
    assert "airline_08" + " (" + "中/小" + " 규모 보유 - " + "중형 항공사" + ")"
        == "airline_08 (中/小 규모 보유 - 중형 항공사)";
    Airline08Scales();
    DescriptionParts("airline_08", Airline08, "中/小", "중형 항공사");
  }

  lemma Airline02Scales()
    ensures StrippedScales(Airline02.operationScales.value) == ["大", "中", "小"]
    ensures ScaleDescription(Airline02.operationScales.value) == "大/中/小"
  {
    StripScaleSuffix('大');
    StripScaleSuffix('中');
    StripScaleSuffix('小');
    assert LargeScaleKey == ['大'] + ScaleSuffix;
    assert MediumScaleKey == ['中'] + ScaleSuffix;
    assert SmallScaleKey == ['小'] + ScaleSuffix;
    assert StrippedScales([LargeScaleKey, MediumScaleKey, SmallScaleKey]) == ["大", "中", "小"];
    assert ["大", "中", "小"][1..] == ["中", "小"];
    assert ["中", "小"][1..] == ["小"];
  }

  /** airline_02 is described as a large airline with all three scales. */
  lemma Airline02Description()
    ensures GetAirlineDescription("airline_02", Airline02) == "airline_02 (大/中/小 규모 보유 - 대형 항공사)"
  {
    assert "airline_02" + " (" + "大/中/小" + " 규모 보유 - " + "대형 항공사" + ")"
        == "airline_02 (大/中/小 규모 보유 - 대형 항공사)";
    Airline02Scales();
    DescriptionParts("airline_02", Airline02, "大/中/小", "대형 항공사");
  }

}
