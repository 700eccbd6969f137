/** Airline profiles: per-airline configuration records. Keys a profile may
    lack are optional; each consumer applies its own default or fails. */
module Profiles {
  import opened Common

  const LargeScaleKey: string := "大規模運航"
  const MediumScaleKey: string := "中規模運航"
  const SmallScaleKey: string := "小規模運航"

  datatype Profile = Profile(
    brandRecognition: Option<real>,
    internationalFocus: Option<real>,
    domesticFocus: Option<real>,
    baseDemand: Option<int>,
    priceElasticity: Option<real>,
    routeCountRange: Option<(int, int)>,
    connectedAirports: Option<int>,
    operationScales: Option<seq<string>>)

  /** airline_08: medium and small scales, with a route-count range. */
  const Airline08: Profile := Profile(
    Some(0.55), Some(0.4), Some(0.9), Some(85), Some(-0.65),
    Some((15, 25)), None, Some([MediumScaleKey, SmallScaleKey]))

  /** airline_02: all three scales, with a fixed connected-airport count
      instead of a route-count range. */
  const Airline02: Profile := Profile(
    Some(0.85), Some(0.7), Some(0.3), Some(160), Some(-0.3),
    None, Some(19), Some([LargeScaleKey, MediumScaleKey, SmallScaleKey]))
}
