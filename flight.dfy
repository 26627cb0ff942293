/** Flight distance and fare: the guard on the two airport names and the tiered per-kilometre
    price. The great-circle distance itself (haversine on the airports' coordinates) is an
    input: `distanceKm` is the distance between the two airports that the caller computed. */
module Flight {
  import opened Basics
  import opened Text

  datatype Coord = Coord(lat: real, lon: real)

  /** The airports the estimator knows, keyed by lower-case name. */
  const Airports: map<string, Coord> := map[
    "mumbai" := Coord(19.0760, 72.8777),
    "delhi" := Coord(28.6139, 77.2090),
    "paris" := Coord(48.8566, 2.3522),
    "tokyo" := Coord(35.6762, 139.6503),
    "dubai" := Coord(25.2048, 55.2708),
    "london" := Coord(51.5072, -0.1276),
    "rome" := Coord(41.9028, 12.4964),
    "sydney" := Coord(-33.8688, 151.2093),
    "new york" := Coord(40.7128, -74.0060)
  ]

  const LongHaulKm: real := 3000.0
  const LongHaulRate: real := 0.08
  const ShortHaulRate: real := 0.12

  /** `(distance_km, estimated_price)`; `distance` is None when the route is unknown. */
  datatype FlightQuote = FlightQuote(distance: Option<int>, price: int)

  predicate KnownAirport(name: Option<string>)
  {
    Truthy(name) && Lower(name.value) in Airports
  }

  /** `calculate_flight_cost(source, destination)`. */
  function FlightCost(source: Option<string>, destination: Option<string>, distanceKm: real): (q: FlightQuote)
    requires distanceKm >= 0.0
    ensures q.distance.None? <==> !KnownAirport(source) || !KnownAirport(destination)
    ensures q.distance.None? ==> q.price == 0
    ensures q.distance.Some? ==>
              0 <= q.distance.value && q.distance.value as real <= distanceKm < q.distance.value as real + 1.0
    ensures q.distance.Some? && distanceKm > LongHaulKm ==>
              0 <= q.price && q.price as real <= distanceKm * LongHaulRate < q.price as real + 1.0
    ensures q.distance.Some? && distanceKm <= LongHaulKm ==>
              0 <= q.price && q.price as real <= distanceKm * ShortHaulRate < q.price as real + 1.0
  {
    if !Truthy(source) || !Truthy(destination) then FlightQuote(None, 0)
    else if Lower(source.value) !in Airports || Lower(destination.value) !in Airports then FlightQuote(None, 0)
    else
      var rate := if distanceKm > LongHaulKm then LongHaulRate else ShortHaulRate;
      FlightQuote(Some(distanceKm.Floor), (distanceKm * rate).Floor)
  }

  /** Swapping the endpoints changes neither the guard nor the price, because the
      great-circle distance is the same both ways. */
  lemma FlightCostSymmetric(a: Option<string>, b: Option<string>, distanceKm: real)
    requires distanceKm >= 0.0
    ensures FlightCost(a, b, distanceKm) == FlightCost(b, a, distanceKm)
  {
  }

  /** The tiers are not monotone in distance: a known route of 3000 km costs 360, and a
      longer one costs less than that exactly while it is shorter than 4500 km. */
  lemma LongHaulFareDrop(a: Option<string>, b: Option<string>, distanceKm: real)
    requires KnownAirport(a) && KnownAirport(b) && distanceKm > LongHaulKm
    ensures FlightCost(a, b, LongHaulKm).price == 360
    ensures FlightCost(a, b, distanceKm).price < FlightCost(a, b, LongHaulKm).price <==> distanceKm < 4500.0
  {
    var q := FlightCost(a, b, distanceKm);
    if distanceKm < 4500.0 {
      assert q.price as real <= distanceKm * LongHaulRate < 360.0;
    } else {
      assert 360.0 <= distanceKm * LongHaulRate < q.price as real + 1.0;
    }
  }
}
