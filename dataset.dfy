/** The reference dataset of cities, hotels and attractions, and its case-insensitive lookup. */
module Dataset {
  import opened Basics
  import opened Text

  /** One hotel of a city: `type` is one of "luxury", "mid-range", "budget". */
  datatype Hotel = Hotel(name: string, kind: string, rating: real, pricePerNight: nat, location: string)

  /** One attraction of a city; `categories` holds its tags ("Museum", "Food & Culture", ...). */
  datatype Attraction = Attraction(name: string, categories: seq<string>, entryFee: nat,
                                   durationHours: real, bestTime: string)

  datatype City = City(name: string, hotels: seq<Hotel>, attractions: seq<Attraction>)

  function FindCityFrom(cities: seq<City>, name: string, i: nat): (r: Option<nat>)
    requires i <= |cities|
    ensures r.Some? ==> i <= r.value < |cities| && Lower(cities[r.value].name) == Lower(name)
    ensures r.Some? ==> forall j :: i <= j < r.value ==> Lower(cities[j].name) != Lower(name)
    ensures r.None? ==> forall j :: i <= j < |cities| ==> Lower(cities[j].name) != Lower(name)
    decreases |cities| - i
  {
    if i == |cities| then None
    else if Lower(cities[i].name) == Lower(name) then Some(i)
    else FindCityFrom(cities, name, i + 1)
  }

  /** The index of the first city whose lower-cased name equals the lower-cased `name`
      (the generator expression passed to `next(..., None)`). */
  function FindCity(cities: seq<City>, name: string): (r: Option<nat>)
    ensures r.Some? ==> r.value < |cities| && Lower(cities[r.value].name) == Lower(name)
    ensures r.Some? ==> forall j :: 0 <= j < r.value ==> Lower(cities[j].name) != Lower(name)
    ensures r.None? ==> forall j :: 0 <= j < |cities| ==> Lower(cities[j].name) != Lower(name)
  {
    FindCityFrom(cities, name, 0)
  }
}
