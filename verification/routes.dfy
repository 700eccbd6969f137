/** Route generation and the calendar of the candidate generator: the
    airport table by country, international routes drawn as mirrored pairs
    between Japan and one other country, domestic routes between two
    distinct Japanese airports, the month-length table, the 32 half-hourly
    departure times, and the data set each route's rows are filed under. */
module Routes {
  import opened Common
  import opened Text

  const Japan: string := "日本"

  /** Airports by country, in the generator's order. */
  const AirportsByCountry: seq<(string, seq<string>)> := [
    (Japan, ["羽田", "成田", "関西", "中部", "福岡", "新千歳", "那覇"]),
    ("韓国", ["仁川", "金浦", "金海", "済州"]),
    ("中国", ["北京大興", "首都", "浦東", "虹橋", "白雲"]),
    ("台湾", ["桃園", "松山"]),
    ("香港", ["赤鱲角"]),
    ("マカオ", ["マカオ"]),
    ("タイ", ["スワンナプーム", "ドンムアン"]),
    ("シンガポール", ["チャンギ"]),
    ("マレーシア", ["クアラルンプール"]),
    ("ベトナム", ["ノイバイ", "タンソンニャット"])
  ]

  predicate IsCountry(country: string) {
    exists i :: 0 <= i < |AirportsByCountry| && AirportsByCountry[i].0 == country
  }

  /** The airports of a listed country (none for an unlisted one). */
  function AirportsOf(country: string): seq<string> {
    AirportsIn(country, AirportsByCountry)
  }

  function AirportsIn(country: string, table: seq<(string, seq<string>)>): seq<string> {
    if |table| == 0 then []
    else if table[0].0 == country then table[0].1
    else AirportsIn(country, table[1..])
  }

  function JapanAirports(): seq<string> {
    AirportsOf(Japan)
  }

  datatype Route = Route(
    departure: string,
    arrival: string,
    departureCountry: string,
    arrivalCountry: string,
    routeType: string,
    direction: string)

  /** The same route flown the other way: endpoints and countries swapped,
      a departure from Japan becoming an arrival in Japan and back. */
  function Mirror(r: Route): Route {
    Route(r.arrival, r.departure, r.arrivalCountry, r.departureCountry, r.routeType,
          if r.direction == "departure" then "arrival"
          else if r.direction == "arrival" then "departure"
          else r.direction)
  }

  /** Mirroring twice gives the route back. */
  lemma MirrorInvolution(r: Route)
    ensures Mirror(Mirror(r)) == r
  {
  }

  /** The random choices behind one international route pair. */
  datatype InternationalDraw = InternationalDraw(japanAirport: string, country: string, foreignAirport: string)

  predicate ValidInternationalDraw(d: InternationalDraw) {
    && d.japanAirport in JapanAirports()
    && IsCountry(d.country) && d.country != Japan
    && d.foreignAirport in AirportsOf(d.country)
  }

  /** `np.random.choice(japan_airports, 2, replace=False)`. */
  predicate ValidDomesticDraw(d: (string, string)) {
    d.0 in JapanAirports() && d.1 in JapanAirports() && d.0 != d.1
  }

  /** `int(route_count * 0.6)`; for the route counts a profile can hold the
      floating-point product truncates to the same value as `6n / 10`. */
  function InternationalCount(routeCount: nat): (c: nat)
    ensures c <= routeCount
  {
    routeCount * 6 / 10
  }

  function Outbound(d: InternationalDraw): Route {
    Route(d.japanAirport, d.foreignAirport, Japan, d.country, "international", "departure")
  }

  function DomesticRoute(d: (string, string)): Route {
    Route(d.0, d.1, Japan, Japan, "domestic", "both")
  }

  /** For each international draw, the route out of Japan followed by its
      mirror into Japan. */
  function InternationalPairs(draws: seq<InternationalDraw>): (routes: seq<Route>)
    ensures |routes| == 2 * |draws|
    ensures forall i :: 0 <= i < |draws| ==>
              routes[2 * i] == Outbound(draws[i]) && routes[2 * i + 1] == Mirror(Outbound(draws[i]))
  {
    if |draws| == 0 then []
    else
      var rest := InternationalPairs(draws[1..]);
      var routes := [Outbound(draws[0]), Mirror(Outbound(draws[0]))] + rest;
      assert forall i :: 1 <= i < |draws| ==> draws[1..][i - 1] == draws[i];
      assert forall j :: 0 <= j < |rest| ==> routes[j + 2] == rest[j];
      routes
  }

  /** The routes of an airline: the international pairs, then one domestic
      route per domestic draw. */
  function GenerateRoutes(routeCount: nat, international: seq<InternationalDraw>,
                          domestic: seq<(string, string)>): (routes: seq<Route>)
    requires |international| == InternationalCount(routeCount)
    requires |domestic| == routeCount - InternationalCount(routeCount)
    requires forall i :: 0 <= i < |international| ==> ValidInternationalDraw(international[i])
    requires forall i :: 0 <= i < |domestic| ==> ValidDomesticDraw(domestic[i])
    ensures |routes| == routeCount + InternationalCount(routeCount)
    ensures forall i :: 0 <= i < InternationalCount(routeCount) ==>
              && routes[2 * i].routeType == "international"
              && routes[2 * i].direction == "departure"
              && routes[2 * i].departureCountry == Japan
              && routes[2 * i].arrivalCountry != Japan
              && routes[2 * i + 1] == Mirror(routes[2 * i])
    ensures forall i :: 2 * InternationalCount(routeCount) <= i < |routes| ==>
              && routes[i].routeType == "domestic"
              && routes[i].departure != routes[i].arrival
              && routes[i].departure in JapanAirports()
              && routes[i].arrival in JapanAirports()
  {
    var pairs := InternationalPairs(international);
    var domesticRoutes := seq(|domestic|, j requires 0 <= j < |domestic| => DomesticRoute(domestic[j]));
    var routes := pairs + domesticRoutes;
    forall i | 0 <= i < |international|
      ensures routes[2 * i] == Outbound(international[i])
      ensures routes[2 * i + 1] == Mirror(routes[2 * i])
      ensures routes[2 * i].arrivalCountry != Japan
    {
      assert ValidInternationalDraw(international[i]);
    }
    forall i | 2 * |international| <= i < |routes|
      ensures routes[i] == DomesticRoute(domestic[i - 2 * |international|])
      ensures routes[i].departure != routes[i].arrival
      ensures routes[i].departure in JapanAirports() && routes[i].arrival in JapanAirports()
    {
      assert ValidDomesticDraw(domestic[i - 2 * |international|]);
    }
    routes
  }

  /** Where a candidate row is filed. */
  datatype DataSet = InternationalDeparture | InternationalArrival | DomesticAll

  function DataSetOf(r: Route): DataSet {
    if r.routeType == "international" then
      (if r.direction == "departure" then InternationalDeparture else InternationalArrival)
    else DomesticAll
  }

  /** The two routes of an international pair are filed apart: the outbound
      one with departures from Japan, its mirror with arrivals in Japan. */
  lemma PairFiledApart(d: InternationalDraw)
    ensures DataSetOf(Outbound(d)) == InternationalDeparture
    ensures DataSetOf(Mirror(Outbound(d))) == InternationalArrival
    ensures Mirror(Outbound(d)).departure == d.foreignAirport
    ensures Mirror(Outbound(d)).arrivalCountry == Japan
  {
  }

  /** Days per month; February ignores leap years. */
  const MonthDays: map<int, int> := map[
    2 := 28, 4 := 30, 6 := 30, 9 := 30, 11 := 30,
    1 := 31, 3 := 31, 5 := 31, 7 := 31, 8 := 31, 10 := 31, 12 := 31]

  /** The months in the table's insertion order, which `np.random.choice`
      draws from. */
  const MonthOrder: seq<int> := [2, 4, 6, 9, 11, 1, 3, 5, 7, 8, 10, 12]

  /** A random month and its length; the random source is `draw`. */
  function RandomMonthAndDays(draw: nat): (r: (int, int))
    ensures 1 <= r.0 <= 12 && r.0 in MonthDays && r.1 == MonthDays[r.0]
    ensures r.1 in {28, 30, 31}
  {
    var month := MonthOrder[draw % |MonthOrder|];
    (month, MonthDays[month])
  }

  /** The month table covers exactly the twelve months, once each. */
  lemma MonthTableComplete()
    ensures forall m :: m in MonthDays <==> 1 <= m <= 12
    ensures forall m :: 1 <= m <= 12 ==> m in MonthOrder
    ensures |MonthOrder| == 12
  {
  }

  /** `f"{hour:02d}:{minute:02d}"` for hours 7 to 22 and minutes 0 and 30,
      hour-major: the i-th departure time is 07:00 plus i half hours. */
  function DepartureTimes(): (times: seq<string>)
    ensures |times| == 32
    ensures forall i :: 0 <= i < 32 ==> times[i] == Pad2(7 + i / 2) + ":" + Pad2(30 * (i % 2))
  {
    HalfHourSteps();
    seq(32, i requires 0 <= i < 32 => FormatHHMM(420 + 30 * i))
  }

  /** The i-th half hour from 07:00 falls in hour 7 + i/2, at minute 0 or 30. */
  lemma HalfHourSteps()
    ensures forall i :: 0 <= i < 32 ==> (420 + 30 * i) / 60 == 7 + i / 2 && (420 + 30 * i) % 60 == 30 * (i % 2)
  {
    forall i | 0 <= i < 32
      ensures (420 + 30 * i) / 60 == 7 + i / 2 && (420 + 30 * i) % 60 == 30 * (i % 2)
    {
      assert 420 + 30 * i == 60 * (7 + i / 2) + 30 * (i % 2);
    }
  }

  /** The last departure is 22:30 and its hour is 22. */
  lemma LastDepartureTime()
    ensures DepartureTimes()[31] == FormatHHMM(22 * 60 + 30)
  {
  }
}
