/** Monthly minimum operations per route: a route popularity built from a
    symmetric distance-popularity table, a popular-route bonus, brand and
    demand; a strategic weight built from brand and route-type focus; and an
    interval `[base_min, base_max]` of monthly operations, adjusted by
    popularity, strategy, brand and demand, from which the minimum is drawn. */
module MinimumOperations {
  import opened Common
  import opened Profiles
  import opened Routes

  /** The string key of a route, `f"{departure}-{arrival}"`. */
  function RouteKey(departure: string, arrival: string): string {
    departure + "-" + arrival
  }

  /** The key determines the route when the table's airport names contain no
      dash: whatever splits the key must split it at the table's dash. */
  lemma KeyInjective(a: string, b: string, d: string, e: string)
    requires '-' !in d && '-' !in e
    requires RouteKey(a, b) == RouteKey(d, e)
    ensures a == d && b == e
  {
    var s := RouteKey(d, e);
    assert RouteKey(a, b)[|a|] == '-';
    if |a| < |d| {
      assert false;
    } else if |a| > |d| {
      assert false;
    }
    assert a == s[..|a|] == d;
    assert b == s[|a| + 1..] == e;
  }

  /** A popularity table: (departure, arrival, popularity) per entry. */
  type PopularityTable = seq<(string, string, real)>

  const DomesticPopularity: PopularityTable := [
    ("羽田", "関西", 0.95), ("羽田", "中部", 0.90), ("羽田", "福岡", 0.85),
    ("関西", "中部", 0.80), ("関西", "福岡", 0.75), ("中部", "福岡", 0.70),
    ("新千歳", "那覇", 0.65)
  ]

  const InternationalPopularity: PopularityTable := [
    ("羽田", "金海", 0.95), ("羽田", "仁川", 0.95), ("羽田", "桃園", 0.90),
    ("羽田", "北京大興", 0.85), ("関西", "金海", 0.85), ("関西", "仁川", 0.85),
    ("関西", "桃園", 0.80), ("関西", "北京大興", 0.75), ("福岡", "金海", 0.90),
    ("福岡", "仁川", 0.90), ("福岡", "桃園", 0.85), ("福岡", "北京大興", 0.70)
  ]

  /** The value stored under a key, looking entries up by their string key. */
  function Lookup(table: PopularityTable, key: string): (r: Option<real>)
    ensures r.Some? ==> exists i :: 0 <= i < |table| && RouteKey(table[i].0, table[i].1) == key
                                     && r.value == table[i].2
    ensures r.None? ==> forall i :: 0 <= i < |table| ==> RouteKey(table[i].0, table[i].1) != key
  {
    if |table| == 0 then None
    else if RouteKey(table[0].0, table[0].1) == key then Some(table[0].2)
    else Lookup(table[1..], key)
  }

  function LookupEither(key: string): Option<real> {
    match Lookup(DomesticPopularity, key)
    case Some(v) => Some(v)
    case None => Lookup(InternationalPopularity, key)
  }

  /** Popularity by distance: the forward key in the domestic, then the
      international table, then the reverse key likewise, else 0.6. */
  function DistancePopularity(departure: string, arrival: string): (r: real)
    ensures 0.6 <= r <= 0.95
    ensures var forward := LookupEither(RouteKey(departure, arrival));
            forward.Some? ==> r == forward.value
    ensures var forward, reverse := LookupEither(RouteKey(departure, arrival)), LookupEither(RouteKey(arrival, departure));
            forward.None? && reverse.Some? ==> r == reverse.value
    ensures LookupEither(RouteKey(departure, arrival)).None? && LookupEither(RouteKey(arrival, departure)).None?
            ==> r == 0.6
  {
    match LookupEither(RouteKey(departure, arrival))
    case Some(v) => v
    case None =>
      match LookupEither(RouteKey(arrival, departure))
      case Some(v) => v
      case None => 0.6
  }

  predicate DashFree(table: PopularityTable) {
    forall i :: 0 <= i < |table| ==> '-' !in table[i].0 && '-' !in table[i].1
  }

  /** No route is listed together with its reverse, in either table. */
  predicate NoReversedPair(t1: PopularityTable, t2: PopularityTable) {
    forall i, j :: 0 <= i < |t1| && 0 <= j < |t2| ==> !(t1[i].0 == t2[j].1 && t1[i].1 == t2[j].0)
  }

  lemma TablesWellFormed()
    ensures DashFree(DomesticPopularity) && DashFree(InternationalPopularity)
    ensures NoReversedPair(DomesticPopularity, DomesticPopularity)
    ensures NoReversedPair(DomesticPopularity, InternationalPopularity)
    ensures NoReversedPair(InternationalPopularity, DomesticPopularity)
    ensures NoReversedPair(InternationalPopularity, InternationalPopularity)
  {
  }

  lemma TablesListEachPairOnce()
    ensures PairsDistinct(DomesticPopularity) && PairsDistinct(InternationalPopularity)
    ensures NoSharedPair(DomesticPopularity, InternationalPopularity)
  {
  }

  /** Each (departure, arrival) pair is listed at most once in a table. */
  predicate PairsDistinct(t: PopularityTable) {
    forall i, j :: 0 <= i < j < |t| ==> !(t[i].0 == t[j].0 && t[i].1 == t[j].1)
  }

  /** No (departure, arrival) pair is listed in both tables. */
  predicate NoSharedPair(t1: PopularityTable, t2: PopularityTable) {
    forall i, j :: 0 <= i < |t1| && 0 <= j < |t2| ==> !(t1[i].0 == t2[j].0 && t1[i].1 == t2[j].1)
  }

  /** Looking up a listed pair's key finds that entry's popularity. */
  lemma LookupListed(t: PopularityTable, i: int)
    requires DashFree(t) && PairsDistinct(t) && 0 <= i < |t|
    ensures Lookup(t, RouteKey(t[i].0, t[i].1)) == Some(t[i].2)
  {
    var key := RouteKey(t[i].0, t[i].1);
    var r := Lookup(t, key);
    if r.None? {
      assert false;
    }
    var j :| 0 <= j < |t| && RouteKey(t[j].0, t[j].1) == key && r.value == t[j].2;
    KeyInjective(t[i].0, t[i].1, t[j].0, t[j].1);
    assert i == j;
  }

  /** Looking up the key of a pair the table does not list finds nothing. */
  lemma LookupUnlisted(t: PopularityTable, a: string, b: string)
    requires DashFree(t)
    requires forall j :: 0 <= j < |t| ==> !(t[j].0 == a && t[j].1 == b)
    ensures Lookup(t, RouteKey(a, b)).None?
  {
    var r := Lookup(t, RouteKey(a, b));
    if r.Some? {
      var j :| 0 <= j < |t| && RouteKey(t[j].0, t[j].1) == RouteKey(a, b) && r.value == t[j].2;
      KeyInjective(a, b, t[j].0, t[j].1);
    }
  }

  /** A domestic table entry gives its popularity to its route flown
      either way. */
  lemma {:induction false} ListedDomesticPopularity(i: int)
    requires 0 <= i < |DomesticPopularity|
    ensures var (a, b, p) := DomesticPopularity[i];
            DistancePopularity(a, b) == p && DistancePopularity(b, a) == p
  {
    var (a, b, p) := DomesticPopularity[i];
    TablesWellFormed();
    TablesListEachPairOnce();
    LookupListed(DomesticPopularity, i);
    assert LookupEither(RouteKey(a, b)) == Some(p);
    DistancePopularitySymmetric(a, b);
  }

  /** An international table entry gives its popularity to its route flown
      either way: no domestic entry shadows it. */
  lemma {:induction false} ListedInternationalPopularity(i: int)
    requires 0 <= i < |InternationalPopularity|
    ensures var (a, b, p) := InternationalPopularity[i];
            DistancePopularity(a, b) == p && DistancePopularity(b, a) == p
  {
    var (a, b, p) := InternationalPopularity[i];
    TablesWellFormed();
    TablesListEachPairOnce();
    LookupUnlisted(DomesticPopularity, a, b);
    LookupListed(InternationalPopularity, i);
    assert LookupEither(RouteKey(a, b)) == Some(p);
    DistancePopularitySymmetric(a, b);
  }

  /** A route listed in neither table, in neither direction, gets 0.6. */
  lemma {:induction false} UnlistedPopularity(a: string, b: string)
    requires forall j :: 0 <= j < |DomesticPopularity| ==>
               !(DomesticPopularity[j].0 == a && DomesticPopularity[j].1 == b)
               && !(DomesticPopularity[j].0 == b && DomesticPopularity[j].1 == a)
    requires forall j :: 0 <= j < |InternationalPopularity| ==>
               !(InternationalPopularity[j].0 == a && InternationalPopularity[j].1 == b)
               && !(InternationalPopularity[j].0 == b && InternationalPopularity[j].1 == a)
    ensures DistancePopularity(a, b) == 0.6
  {
    TablesWellFormed();
    LookupUnlisted(DomesticPopularity, a, b);
    LookupUnlisted(InternationalPopularity, a, b);
    LookupUnlisted(DomesticPopularity, b, a);
    LookupUnlisted(InternationalPopularity, b, a);
  }

  /** A key found in either table names a listed (departure, arrival) pair. */
  lemma FoundMeansListed(a: string, b: string)
    requires LookupEither(RouteKey(a, b)).Some?
    ensures (exists i :: 0 <= i < |DomesticPopularity| && DomesticPopularity[i].0 == a && DomesticPopularity[i].1 == b)
         || (exists i :: 0 <= i < |InternationalPopularity| && InternationalPopularity[i].0 == a && InternationalPopularity[i].1 == b)
  {
    TablesWellFormed();
    if Lookup(DomesticPopularity, RouteKey(a, b)).Some? {
      var i :| 0 <= i < |DomesticPopularity| && RouteKey(DomesticPopularity[i].0, DomesticPopularity[i].1) == RouteKey(a, b);
      KeyInjective(a, b, DomesticPopularity[i].0, DomesticPopularity[i].1);
    } else {
      var i :| 0 <= i < |InternationalPopularity| && RouteKey(InternationalPopularity[i].0, InternationalPopularity[i].1) == RouteKey(a, b);
      KeyInjective(a, b, InternationalPopularity[i].0, InternationalPopularity[i].1);
    }
  }

  /** Distance popularity does not depend on the direction flown. */
  lemma DistancePopularitySymmetric(a: string, b: string)
    ensures DistancePopularity(a, b) == DistancePopularity(b, a)
  {
    if LookupEither(RouteKey(a, b)).Some? && LookupEither(RouteKey(b, a)).Some? {
      TablesWellFormed();
      FoundMeansListed(a, b);
      FoundMeansListed(b, a);
      assert false;
    }
  }

  /** The business routes, listed in both directions. */
  const BusinessRoutes: seq<(string, string)> := [
    ("羽田", "関西"), ("関西", "羽田"), ("羽田", "中部"), ("中部", "羽田"),
    ("羽田", "金海"), ("金海", "羽田"), ("羽田", "仁川"), ("仁川", "羽田"),
    ("関西", "金海"), ("金海", "関西"), ("関西", "仁川"), ("仁川", "関西")
  ]

  function BusinessRouteKeys(): seq<string> {
    seq(|BusinessRoutes|, i requires 0 <= i < |BusinessRoutes| => RouteKey(BusinessRoutes[i].0, BusinessRoutes[i].1))
  }

  /** 0.2 for a route whose key is on the business list, else 0. */
  function PopularRouteBonus(departure: string, arrival: string): (r: real)
    ensures r == 0.2 <==> RouteKey(departure, arrival) in BusinessRouteKeys()
    ensures r == 0.0 || r == 0.2
  {
    if RouteKey(departure, arrival) in BusinessRouteKeys() then 0.2 else 0.0
  }

  /** The list pairs each route with its reverse: entries 2k and 2k+1. */
  function Partner(i: nat): nat {
    if i % 2 == 0 then i + 1 else i - 1
  }

  lemma BusinessListClosedUnderReversal(i: nat)
    requires i < |BusinessRoutes|
    ensures '-' !in BusinessRoutes[i].0 && '-' !in BusinessRoutes[i].1
    ensures Partner(i) < |BusinessRoutes|
    ensures BusinessRoutes[Partner(i)].0 == BusinessRoutes[i].1
    ensures BusinessRoutes[Partner(i)].1 == BusinessRoutes[i].0
  {
  }

  lemma BonusOneWay(a: string, b: string)
    requires PopularRouteBonus(a, b) == 0.2
    ensures PopularRouteBonus(b, a) == 0.2
  {
    var keys := BusinessRouteKeys();
    var i :| 0 <= i < |keys| && keys[i] == RouteKey(a, b);
    BusinessListClosedUnderReversal(i);
    KeyInjective(a, b, BusinessRoutes[i].0, BusinessRoutes[i].1);
    var j := Partner(i);
    assert keys[j] == RouteKey(b, a);
  }

  /** The bonus does not depend on the direction flown. */
  lemma PopularRouteBonusSymmetric(a: string, b: string)
    ensures PopularRouteBonus(a, b) == PopularRouteBonus(b, a)
  {
    if PopularRouteBonus(a, b) == 0.2 {
      BonusOneWay(a, b);
    } else if PopularRouteBonus(b, a) == 0.2 {
      BonusOneWay(b, a);
    }
  }

  /** `min(base_demand / 150, 1.0)`. */
  function DemandFactor(baseDemand: int): (r: real)
    ensures r <= 1.0
    ensures baseDemand >= 0 ==> r >= 0.0
    ensures baseDemand <= 150 ==> r == baseDemand as real / 150.0
  {
    if baseDemand as real / 150.0 < 1.0 then baseDemand as real / 150.0 else 1.0
  }

  function Brand(profile: Profile): real {
    profile.brandRecognition.GetOr(0.5)
  }

  function BaseDemand(profile: Profile): int {
    profile.baseDemand.GetOr(100)
  }

  /** The weighted popularity score before clamping. */
  function RawPopularity(route: Route, profile: Profile): real {
    var typeFactor := if route.routeType == "domestic" then 0.8 else 0.6;
    DistancePopularity(route.departure, route.arrival) * 0.3
      + typeFactor * 0.25
      + PopularRouteBonus(route.departure, route.arrival) * 0.2
      + Brand(profile) * 0.15
      + DemandFactor(BaseDemand(profile)) * 0.1
  }

  /** Route popularity, clamped to [0, 1]. */
  function RoutePopularity(route: Route, profile: Profile): (r: real)
    ensures 0.0 <= r <= 1.0
  {
    Clamp(0.0, 1.0, RawPopularity(route, profile))
  }

  /** Popularity ignores direction: a route and its mirror are equally popular. */
  lemma RoutePopularitySymmetric(route: Route, profile: Profile)
    ensures RoutePopularity(Mirror(route), profile) == RoutePopularity(route, profile)
  {
    DistancePopularitySymmetric(route.departure, route.arrival);
    PopularRouteBonusSymmetric(route.departure, route.arrival);
  }

  /** With a brand recognition in [0, 1] (as every profile has) popularity is
      at most 0.775, so the "over 0.9" tier of the monthly-operations rules
      is never reached through popularity. */
  lemma PopularityCeiling(route: Route, profile: Profile)
    requires Brand(profile) <= 1.0
    ensures RoutePopularity(route, profile) <= 0.775
  {
  }

  /** The size term: 0.2 only for domestic routes of airlines with a brand
      below 0.4. */
  function SizeStrategy(routeType: string, brand: real): (r: real)
    ensures r == 0.2 <==> routeType == "domestic" && brand < 0.4
    ensures r == 0.0 || r == 0.2
  {
    if routeType == "domestic" && brand < 0.4 then 0.2 else 0.0
  }

  /** The competitive term: 0.1 only for domestic routes of airlines with a
      brand below 0.5. */
  function CompetitiveStrategy(routeType: string, brand: real): (r: real)
    ensures r == 0.1 <==> routeType == "domestic" && brand < 0.5
    ensures r == 0.0 || r == 0.1
  {
    if routeType == "domestic" && brand < 0.5 then 0.1 else 0.0
  }

  /** The strategy score before clamping: brand, the route type's focus, and
      the two small-airline domestic terms. */
  function RawStrategicWeight(routeType: string, profile: Profile): real {
    var brand := Brand(profile);
    var focus := if routeType == "international" then profile.internationalFocus.GetOr(0.5)
                 else profile.domesticFocus.GetOr(0.5);
    brand * 0.4 + focus * 0.3 + SizeStrategy(routeType, brand) + CompetitiveStrategy(routeType, brand)
  }

  /** The strategic weight of a route type, clamped to [0, 1]. */
  function StrategicWeight(routeType: string, profile: Profile): (r: real)
    ensures 0.0 <= r <= 1.0
  {
    Clamp(0.0, 1.0, RawStrategicWeight(routeType, profile))
  }

  /** The domestic boost over the plain brand-and-focus score is 0.3 below a
      brand of 0.4, 0.1 from 0.4 up to 0.5, and nothing from 0.5 up; other
      route types never get it. */
  lemma StrategicBoost(routeType: string, profile: Profile)
    ensures var brand := Brand(profile);
            var focus := if routeType == "international" then profile.internationalFocus.GetOr(0.5)
                         else profile.domesticFocus.GetOr(0.5);
            var boost := RawStrategicWeight(routeType, profile) - (brand * 0.4 + focus * 0.3);
            && (routeType != "domestic" ==> boost == 0.0)
            && (routeType == "domestic" && brand < 0.4 ==> boost == 0.3)
            && (routeType == "domestic" && 0.4 <= brand < 0.5 ==> boost == 0.1)
            && (routeType == "domestic" && brand >= 0.5 ==> boost == 0.0)
  {
  }

  /** `min(base_min + k, base_max)`: one upward adjustment of the lower end. */
  function Raise(baseMin: int, baseMax: int, k: nat): (r: int)
    requires baseMin <= baseMax
    ensures baseMin <= r <= baseMax
    ensures r == baseMin + k || r == baseMax
  {
    if baseMin + k < baseMax then baseMin + k else baseMax
  }

  /** The international interval `[base_min, base_max]` before the draw. */
  function InternationalBounds(popularity: real, strategic: real, brand: real, baseDemand: int): (b: (int, int))
    ensures 3 <= b.0 <= b.1 <= 10
    ensures b.1 == (if popularity > 0.9 then 10 else if popularity > 0.7 then 8
                    else if popularity > 0.5 then 7 else 6)
    ensures var tierMin := if popularity > 0.9 then 6 else if popularity > 0.7 then 5
                           else if popularity > 0.5 then 4 else 3;
            && tierMin <= b.0 <= tierMin + 3
            && (strategic <= 0.6 && !(brand > 0.6 && baseDemand > 100) ==> b.0 == tierMin)
  {
    var (min0, max0) :=
      if popularity > 0.9 then (6, 10)
      else if popularity > 0.7 then (5, 8)
      else if popularity > 0.5 then (4, 7)
      else (3, 6);
    var min1 :=
      if strategic > 0.8 then Raise(min0, max0, 2)
      else if strategic > 0.6 then Raise(min0, max0, 1)
      else min0;
    var min2 :=
      if brand > 0.8 && baseDemand > 120 then Raise(min1, max0, 1)
      else if brand > 0.6 && baseDemand > 100 then Raise(min1, max0, 1)
      else min1;
    (min2, max0)
  }

  /** The domestic interval `[base_min, base_max]` before the draw. */
  function DomesticBounds(popularity: real, strategic: real, brand: real, baseDemand: int): (b: (int, int))
    ensures 4 <= b.0 <= b.1 <= 18
    ensures var tierMin := if popularity > 0.9 then 8 else if popularity > 0.7 then 7
                           else if popularity > 0.5 then 6 else 4;
            && tierMin <= b.0 <= tierMin + 5
            && (strategic <= 0.6 && !(brand < 0.4 && popularity > 0.7) && !(brand > 0.5 && baseDemand > 80)
                ==> b.0 == tierMin)
  {
    var (min0, max0) :=
      if popularity > 0.9 then (8, 15)
      else if popularity > 0.7 then (7, 12)
      else if popularity > 0.5 then (6, 10)
      else (4, 8);
    var min1 :=
      if strategic > 0.8 then Raise(min0, max0, 2)
      else if strategic > 0.6 then Raise(min0, max0, 1)
      else min0;
    var (min2, max2) :=
      if brand < 0.4 && popularity > 0.7 then
        (Raise(min1, max0, 2), if max0 + 3 < 18 then max0 + 3 else 18)
      else (min1, max0);
    var min3 :=
      if brand > 0.7 && baseDemand > 100 then Raise(min2, max2, 1)
      else if brand > 0.5 && baseDemand > 80 then Raise(min2, max2, 1)
      else min2;
    (min3, max2)
  }

  /** The upper end only grows in the small-airline step, and by at most 3;
      otherwise it is the popularity tier's. */
  lemma DomesticUpperEnd(popularity: real, strategic: real, brand: real, baseDemand: int)
    ensures var hi := DomesticBounds(popularity, strategic, brand, baseDemand).1;
            var tier := if popularity > 0.9 then 15 else if popularity > 0.7 then 12
                        else if popularity > 0.5 then 10 else 8;
            (brand < 0.4 && popularity > 0.7 ==> hi == tier + 3) &&
            (!(brand < 0.4 && popularity > 0.7) ==> hi == tier)
  {
  }

  /** The international minimum: a draw from the international interval. */
  function InternationalMonthlyOperations(profile: Profile, popularity: real, strategic: real, draw: nat): (r: int)
    ensures var b := InternationalBounds(popularity, strategic, Brand(profile), BaseDemand(profile));
            b.0 <= r <= b.1
    ensures 3 <= r <= 10
  {
    var b := InternationalBounds(popularity, strategic, Brand(profile), BaseDemand(profile));
    Draw(b.0, b.1, draw)
  }

  /** The domestic minimum: a draw from the domestic interval. */
  function DomesticMonthlyOperations(profile: Profile, popularity: real, strategic: real, draw: nat): (r: int)
    ensures var b := DomesticBounds(popularity, strategic, Brand(profile), BaseDemand(profile));
            b.0 <= r <= b.1
    ensures 4 <= r <= 18
  {
    var b := DomesticBounds(popularity, strategic, Brand(profile), BaseDemand(profile));
    Draw(b.0, b.1, draw)
  }

  /** The monthly minimum of a route: the international rule for
      `"international"`, the domestic rule for every other type. */
  function DetermineMinimumOperations(route: Route, profile: Profile, draw: nat): (r: int)
    ensures var p := RoutePopularity(route, profile);
            var s := StrategicWeight(route.routeType, profile);
            && (route.routeType == "international" ==> r == InternationalMonthlyOperations(profile, p, s, draw))
            && (route.routeType != "international" ==> r == DomesticMonthlyOperations(profile, p, s, draw))
    ensures route.routeType == "international" ==> 3 <= r <= 10
    ensures route.routeType != "international" ==> 4 <= r <= 18
  {
    var popularity := RoutePopularity(route, profile);
    var strategic := StrategicWeight(route.routeType, profile);
    if route.routeType == "international" then
      InternationalMonthlyOperations(profile, popularity, strategic, draw)
    else
      DomesticMonthlyOperations(profile, popularity, strategic, draw)
  }
}
