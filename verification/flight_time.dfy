/** Flight time between two airports: distance at 800 km/h, rounded to the
    nearest half hour, clamped to [30, 480] minutes, and memoised per ordered
    (departure, arrival) pair. The great-circle distance itself is a parameter;
    only its fallback for airports without coordinates is modelled. */
module FlightTime {
  import opened Common

  /** Distance used when either airport has no coordinates. */
  const DefaultDistanceKm: real := 1000.0

  datatype Coordinate = Coordinate(latitude: real, longitude: real)

  /** Distance between two airports: the great-circle distance when both
      have coordinates, the 1000 km default otherwise. */
  function Distance(coordinates: map<string, Coordinate>, a: string, b: string,
                    greatCircle: (Coordinate, Coordinate) -> real): (d: real)
    ensures a !in coordinates || b !in coordinates ==> d == DefaultDistanceKm
    ensures a in coordinates && b in coordinates ==> d == greatCircle(coordinates[a], coordinates[b])
  {
    if a !in coordinates || b !in coordinates then DefaultDistanceKm
    else greatCircle(coordinates[a], coordinates[b])
  }

  /** The flight time, in minutes, for a given distance. */
  function FlightMinutes(distanceKm: real): (m: int)
    ensures m % 30 == 0 && 30 <= m <= 480
  {
    var rounded := RoundHalfEven(distanceKm / 800.0 * 60.0 / 30.0) * 30;
    if rounded < 30 then 30
    else if rounded > 480 then 480
    else rounded
  }

  /** Within the clamp, the result is the distance in half-hours at 800 km/h
      rounded to the nearest half hour (ties to an even number of half-hours). */
  lemma FlightMinutesNearest(distanceKm: real)
    requires 30.0 <= distanceKm * 60.0 / 800.0 <= 480.0
    ensures var m := FlightMinutes(distanceKm) as real;
            m - 15.0 <= distanceKm * 60.0 / 800.0 <= m + 15.0
  {
  }

  /** A longer distance never gives a shorter flight. */
  lemma FlightMinutesMonotone(d1: real, d2: real)
    requires d1 <= d2
    ensures FlightMinutes(d1) <= FlightMinutes(d2)
  {
    RoundHalfEvenMonotone(d1 / 800.0 * 60.0 / 30.0, d2 / 800.0 * 60.0 / 30.0);
  }

  /** Airports without coordinates: 1000 km is 2.5 half-hours, which rounds
      half-to-even down to 2, so the flight takes 60 minutes. */
  lemma DefaultDistanceFlightMinutes()
    ensures FlightMinutes(DefaultDistanceKm) == 60
  {
    assert DefaultDistanceKm / 800.0 * 60.0 / 30.0 == 2.5;
    assert (2.5).Floor == 2;
  }

  type RouteKey = (string, string)

  /** The memo: ordered (departure, arrival) pair to minutes. */
  type Cache = map<RouteKey, int>

  /** Every cached value is a flight time the computation can produce. */
  predicate ValidCache(cache: Cache) {
    forall k :: k in cache ==> cache[k] % 30 == 0 && 30 <= cache[k] <= 480
  }

  /** One memoised lookup: a hit returns the stored value and leaves the
      cache as it was; a miss computes the time from the distance and stores
      it under the ordered key. */
  function CachedFlightTime(cache: Cache, departure: string, arrival: string,
                            distance: (string, string) -> real): (res: (int, Cache))
    ensures (departure, arrival) in cache ==> res == (cache[(departure, arrival)], cache)
    ensures (departure, arrival) !in cache ==>
              res.0 == FlightMinutes(distance(departure, arrival)) &&
              res.1 == cache[(departure, arrival) := res.0]
    ensures (departure, arrival) in res.1 && res.1[(departure, arrival)] == res.0
    ensures ValidCache(cache) ==> ValidCache(res.1) && res.0 % 30 == 0 && 30 <= res.0 <= 480
  {
    var key := (departure, arrival);
    if key in cache then (cache[key], cache)
    else
      var minutes := FlightMinutes(distance(departure, arrival));
      (minutes, cache[key := minutes])
  }

  /** Asking twice is a hit the second time: same minutes, same cache. */
  lemma RepeatLookupHits(cache: Cache, departure: string, arrival: string,
                         distance: (string, string) -> real)
    ensures var (m, c) := CachedFlightTime(cache, departure, arrival, distance);
            CachedFlightTime(c, departure, arrival, distance) == (m, c)
  {
  }

  /** The key is ordered: caching (a, b) does not answer (b, a), whose time
      is computed from its own distance. */
  lemma ReverseKeyIsSeparate(cache: Cache, a: string, b: string,
                             distance: (string, string) -> real)
    requires a != b && (b, a) !in cache
    ensures var (_, c) := CachedFlightTime(cache, a, b, distance);
            (b, a) !in c &&
            CachedFlightTime(c, b, a, distance).0 == FlightMinutes(distance(b, a))
  {
  }

  /** The flight times of a sequence of routes, threading the memo through
      the lookups in order, as the candidate generator does. Each answer is
      what the final cache holds for its key, so repeated routes agree. */
  method FlightTimesFor(keys: seq<RouteKey>, cache: Cache,
                        distance: (string, string) -> real)
    returns (times: seq<int>, cache': Cache)
    requires ValidCache(cache)
    ensures |times| == |keys|
    ensures ValidCache(cache')
    ensures forall k :: k in cache ==> k in cache' && cache'[k] == cache[k]
    ensures forall k :: k in cache' && k !in cache ==> k in keys
    ensures forall i :: 0 <= i < |keys| ==> keys[i] in cache' && times[i] == cache'[keys[i]]
    ensures forall i :: 0 <= i < |keys| && keys[i] !in cache ==>
              times[i] == FlightMinutes(distance(keys[i].0, keys[i].1))
  {
    times := [];
    cache' := cache;
    var i := 0;
    while i < |keys|
      invariant 0 <= i <= |keys|
      invariant |times| == i
      invariant ValidCache(cache')
      invariant forall k :: k in cache ==> k in cache' && cache'[k] == cache[k]
      invariant forall k :: k in cache' && k !in cache ==>
                  k in keys[..i] && cache'[k] == FlightMinutes(distance(k.0, k.1))
      invariant forall j :: 0 <= j < i ==> keys[j] in cache' && times[j] == cache'[keys[j]]
    {
      var (m, c) := CachedFlightTime(cache', keys[i].0, keys[i].1, distance);
      times := times + [m];
      cache' := c;
      i := i + 1;
    }
    assert keys[..i] == keys;
  }
}
