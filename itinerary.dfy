/** The itinerary generator (`generate_itinerary`): flight quote, hotel choice against 60% of
    the budget left after the flight, a shuffled pick of two attractions per day, the cost
    breakdown, one history record and the overwrite of the session. `Generation` states the
    whole step as a function of the session, the dataset and the request; the class method
    `Assistant.GenerateItinerary` performs it in place. */
module Itinerary {
  import opened Basics
  import opened Text
  import opened Dataset
  import opened Flight

  /** The draws the source takes from Python's `random` module, made explicit:
      `random.choice(xs)` returns `xs[hotelPick % |xs|]`; step `i` of `random.shuffle`
      swaps with index `swapRoll(i) % (i + 1)`; `random.randint(1, n)` returns
      `1 + dayPick % n`. Every outcome of the library calls is reachable this way. */
  datatype Dice = Dice(hotelPick: nat, swapRoll: nat -> nat, dayPick: nat)

  /** The session dictionary `last_trip`, plus the `filtered_hotels` entry that the hotel
      listing adds to it (absent at first, which reads as an empty list). */
  datatype LastTrip = LastTrip(
    source: Option<string>,
    city: Option<string>,
    budget: Option<nat>,
    days: Option<nat>,
    hotels: Option<seq<Hotel>>,
    selectedHotel: Option<Hotel>,
    chosen: Option<seq<Attraction>>,
    attractionsAll: Option<seq<Attraction>>,
    filtered: seq<Hotel>)

  /** The session before any trip has been planned. */
  const EmptyTrip: LastTrip := LastTrip(None, None, None, None, None, None, None, None, [])

  /** The session invariant: a city is only ever stored together with its days and budget. */
  predicate WellFormed(t: LastTrip)
  {
    t.city.Some? ==> t.days.Some? && t.budget.Some?
  }

  /** One row of the `trip_history` table (the id and the timestamp are left out). */
  datatype TripRecord = TripRecord(source: Option<string>, destination: string, days: nat, budget: nat,
                                   totalCost: int, hotel: string, attractions: string)

  /** The INSERT of lines 160-172 accepts the row: its integer columns fit. */
  predicate Storable(r: TripRecord)
  {
    Int64(r.days) && Int64(r.budget) && Int64(r.totalCost)
  }

  datatype Breakdown = Breakdown(flight: int, hotel: int, attractions: int, misc: int, total: int)

  /** The content of the rendered itinerary text. `schedule[d]` lists the indexes into
      `attractions` printed under day `d + 1`. */
  datatype Report = Report(source: Option<string>, city: string, days: nat, budget: nat,
                           distance: Option<int>, remaining: int, hotel: Hotel,
                           attractions: seq<Attraction>, schedule: seq<seq<nat>>,
                           cost: Breakdown, leftover: int)

  /** The Python exceptions the core can raise; each one ends the program. */
  datatype Fault =
    | EmptyHotelList     // min() of a city without hotels
    | IndexOutOfRange    // booking a number past the end of the listed hotels
    | MissingDayNumber   // "day" in the message but no number after it
    | EmptyDayRange      // random.randint(1, 0)
    | NoSessionData      // iterating the hotels or attractions of a session that has none
    | FloatOverflow      // the post-flight remainder is too large for a float (lines 146 and 157)
    | StorageOverflow    // days, budget or total do not fit SQLite's INTEGER (lines 160-172)

  const TwoTo64: int := 0x1_0000_0000_0000_0000

  /** Python turns an int into a float by rounding it to the nearest double, and raises
      OverflowError when that rounds to 2^1024 or more in magnitude: from
      (2^54 - 1) * 2^970 = 2^1024 - 2^970 on. */
  const FloatOverflowBound: int := 0xFFFF_FFFF_FFFF_FC00_0000_0000_0000_0000_0000_0000_0000_0000_0000_0000_0000_0000_0000_0000_0000_0000_0000_0000_0000_0000_0000_0000_0000_0000_0000_0000_0000_0000_0000_0000_0000_0000_0000_0000_0000_0000_0000_0000_0000_0000_0000_0000_0000_0000_0000_0000_0000_0000_0000_0000_0000_0000_0000_0000_0000_0000_0000_0000_0000_0000

  /** `x * 0.60` and `x * 0.15` can be computed: `x` converts to a float. */
  predicate FloatFits(x: int)
  {
    -FloatOverflowBound < x < FloatOverflowBound
  }

  /** The `sqlite3` module binds a Python int as a signed 64-bit INTEGER and raises
      OverflowError for any int outside that range. */
  predicate Int64(x: int)
  {
    -TwoTo64 / 2 <= x < TwoTo64 / 2
  }

  /** What the assistant answers. */
  datatype Reply =
    | Plan(report: Report)
    | DestinationNotRecognized
    | NotInDataset(city: string)
    | NoPreviousTrips
    | PlanFirst
    | HotelListing(hotels: seq<Hotel>)
    | SpecifyHotelType
    | ChooseValidOption
    | UsageHint
    | Crash(fault: Fault)

  /** The reply to one command, the session and dataset after it, and the history row it
      inserted, if any. */
  datatype Outcome = Outcome(reply: Reply, trip: LastTrip, dataset: seq<City>, record: Option<TripRecord>)

  function Recorded(r: Option<TripRecord>): seq<TripRecord>
  {
    if r.Some? then [r.value] else []
  }

  // ---------------------------------------------------------------- hotel choice

  /** The stay fits the hotel budget: `price_per_night * days <= remaining * 0.60`. */
  predicate Viable(h: Hotel, days: nat, remaining: int)
  {
    100 * (h.pricePerNight * days) <= 60 * remaining
  }

  /** `[h for h in hotels if h["price_per_night"] * days <= hotel_budget_cap]`. */
  function ViableHotels(hotels: seq<Hotel>, days: nat, remaining: int): (r: seq<Hotel>)
    ensures forall h :: h in r <==> h in hotels && Viable(h, days, remaining)
  {
    Filter(hotels, h => Viable(h, days, remaining))
  }

  /** `min(hotels, key=price_per_night)`: the index of the first hotel of least price. */
  function CheapestIndex(hotels: seq<Hotel>): (k: nat)
    requires hotels != []
    ensures k < |hotels|
    ensures forall j :: 0 <= j < |hotels| ==> hotels[k].pricePerNight <= hotels[j].pricePerNight
    ensures forall j :: 0 <= j < k ==> hotels[j].pricePerNight > hotels[k].pricePerNight
  {
    if |hotels| == 1 then 0
    else
      var k := CheapestIndex(hotels[..|hotels| - 1]);
      if hotels[|hotels| - 1].pricePerNight < hotels[k].pricePerNight then |hotels| - 1 else k
  }

  /** `h` is the first hotel of least nightly price in `hotels`. */
  predicate IsFirstCheapest(hotels: seq<Hotel>, h: Hotel)
  {
    exists k :: 0 <= k < |hotels| && hotels[k] == h
      && (forall j :: 0 <= j < |hotels| ==> h.pricePerNight <= hotels[j].pricePerNight)
      && (forall j :: 0 <= j < k ==> hotels[j].pricePerNight > h.pricePerNight)
  }

  /** Lines 142-148: reuse the selected hotel; otherwise a random viable hotel; otherwise the
      cheapest one. None stands for the exception `min()` raises on a city without hotels. */
  function ChooseHotel(selected: Option<Hotel>, hotels: seq<Hotel>, days: nat, remaining: int, pick: nat): (r: Option<Hotel>)
    ensures selected.Some? ==> r == selected
    ensures selected.None? && (exists h :: h in hotels && Viable(h, days, remaining)) ==>
              r.Some? && r.value in hotels && Viable(r.value, days, remaining)
    ensures selected.None? && (forall h :: h in hotels ==> !Viable(h, days, remaining)) ==>
              if hotels == [] then r.None? else r.Some? && IsFirstCheapest(hotels, r.value)
  {
    if selected.Some? then selected
    else
      var viable := ViableHotels(hotels, days, remaining);
      if viable != [] then Some(viable[pick % |viable|])
      else if hotels == [] then None
      else
        var k := CheapestIndex(hotels);
        assert IsFirstCheapest(hotels, hotels[k]);
        Some(hotels[k])
  }

  lemma SmallRemainder(i: nat, n: nat)
    requires i < n
    ensures i % n == i
  {
  }

  /** The random choice is unconstrained: every viable hotel is the outcome of some draw. */
  lemma EveryViableHotelReachable(hotels: seq<Hotel>, days: nat, remaining: int, h: Hotel)
    requires h in hotels && Viable(h, days, remaining)
    ensures exists pick: nat :: ChooseHotel(None, hotels, days, remaining, pick) == Some(h)
  {
    var viable := ViableHotels(hotels, days, remaining);
    assert h in viable;
    var i :| 0 <= i < |viable| && viable[i] == h;
    SmallRemainder(i, |viable|);
    assert ChooseHotel(None, hotels, days, remaining, i) == Some(viable[i]);
  }

  /** The remainder is not clamped: when the flight alone exceeds the budget no hotel is
      viable, and the first cheapest hotel is taken. */
  lemma NegativeRemainderTakesCheapest(hotels: seq<Hotel>, days: nat, remaining: int, pick: nat)
    requires remaining < 0 && hotels != []
    ensures var r := ChooseHotel(None, hotels, days, remaining, pick);
            r.Some? && IsFirstCheapest(hotels, r.value)
  {
    forall h | h in hotels
      ensures !Viable(h, days, remaining)
    {
      assert h.pricePerNight * days >= 0;
    }
  }

  // ---------------------------------------------------------------- attractions

  function Swap<T>(xs: seq<T>, i: nat, j: nat): (r: seq<T>)
    requires i < |xs| && j < |xs|
    ensures |r| == |xs| && multiset(r) == multiset(xs)
  {
    xs[i := xs[j]][j := xs[i]]
  }

  function ShuffleDown<T>(xs: seq<T>, i: nat, roll: nat -> nat): (r: seq<T>)
    requires i < |xs|
    ensures |r| == |xs| && multiset(r) == multiset(xs)
    decreases i
  {
    if i == 0 then xs else ShuffleDown(Swap(xs, i, roll(i) % (i + 1)), i - 1, roll)
  }

  /** `random.shuffle(xs)`: for `i` from `len(xs) - 1` down to 1, swap `xs[i]` with a random
      `xs[j]`, `j <= i`. The result is a permutation of `xs`. */
  function Shuffle<T>(xs: seq<T>, roll: nat -> nat): (r: seq<T>)
    ensures |r| == |xs| && multiset(r) == multiset(xs)
  {
    if |xs| <= 1 then xs else ShuffleDown(xs, |xs| - 1, roll)
  }

  /** The slice `xs[:n]`. */
  function Take<T>(xs: seq<T>, n: nat): (r: seq<T>)
    ensures |r| == Min(n, |xs|) && r == xs[..|r|]
  {
    if n <= |xs| then xs[..n] else xs
  }

  function SumFees(attractions: seq<Attraction>): nat
  {
    if attractions == [] then 0 else attractions[0].entryFee + SumFees(attractions[1..])
  }

  function Names(attractions: seq<Attraction>): seq<string>
  {
    if attractions == [] then [] else [attractions[0].name] + Names(attractions[1..])
  }

  // ---------------------------------------------------------------- costs

  /** `int(remaining * 0.15)`: fifteen per cent of the remainder, truncated toward zero. */
  function MiscCost(remaining: int): (m: int)
    ensures remaining >= 0 ==> 0 <= 100 * m <= 15 * remaining < 100 * m + 100
    ensures remaining < 0 ==> 100 * m - 100 < 15 * remaining <= 100 * m <= 0
  {
    if remaining >= 0 then 15 * remaining / 100 else -((-15 * remaining) / 100)
  }

  // ---------------------------------------------------------------- day layout

  function Clamp(x: nat, n: nat): nat
  {
    if x <= n then x else n
  }

  /** The indexes `lo, lo + 1, ..., hi - 1`. */
  function Range(lo: nat, hi: nat): seq<nat>
    decreases hi
  {
    if hi <= lo then [] else Range(lo, hi - 1) + [hi - 1]
  }

  lemma {:induction false} RangeHas(lo: nat, hi: nat, x: nat)
    ensures x in Range(lo, hi) <==> lo <= x < hi
    decreases hi
  {
    if hi > lo {
      RangeHas(lo, hi - 1, x);
    }
  }

  /** The attraction indexes printed under day `d + 1`: two per day, in selection order. */
  function DaySlots(d: nat, count: nat): seq<nat>
  {
    Range(Clamp(2 * d, count), Clamp(2 * d + 2, count))
  }

  function Schedule(days: nat, count: nat): seq<seq<nat>>
  {
    seq(days, d requires 0 <= d < days => DaySlots(d, count))
  }

  /** With at most two attractions per day, each selected attraction is printed exactly
      once, under day `i / 2 + 1`. */
  lemma ScheduleCoversSelection(days: nat, count: nat)
    requires count <= 2 * days
    ensures |Schedule(days, count)| == days
    ensures forall i :: 0 <= i < count ==> i in Schedule(days, count)[i / 2]
    ensures forall d, i :: 0 <= d < days && i in Schedule(days, count)[d] ==> i < count && d == i / 2
  {
    forall i | 0 <= i < count
      ensures i in Schedule(days, count)[i / 2]
    {
      RangeHas(Clamp(2 * (i / 2), count), Clamp(2 * (i / 2) + 2, count), i);
    }
    forall d, i | 0 <= d < days && i in Schedule(days, count)[d]
      ensures i < count && d == i / 2
    {
      RangeHas(Clamp(2 * d, count), Clamp(2 * d + 2, count), i);
    }
  }

  /** The rendering loop of lines 204-212: `for day in 1..days`, two slots a day, a running
      index that stops at the number of selected attractions. */
  method DaySchedule(days: nat, count: nat) returns (schedule: seq<seq<nat>>)
    ensures schedule == Schedule(days, count)
  {
    schedule := [];
    var index: nat := 0;
    for day := 1 to days + 1
      invariant |schedule| == day - 1
      invariant index == Clamp(2 * (day - 1), count)
      invariant forall d :: 0 <= d < day - 1 ==> schedule[d] == DaySlots(d, count)
    {
      var slots: seq<nat> := [];
      for k := 0 to 2
        invariant index == Clamp(2 * (day - 1) + k, count)
        invariant slots == Range(Clamp(2 * (day - 1), count), index)
      {
        if index < count {
          slots := slots + [index];
          index := index + 1;
        }
      }
      schedule := schedule + [slots];
    }
  }

  // ---------------------------------------------------------------- the whole step

  /** The city is known and a hotel can be had: the generation goes through. */
  predicate Plannable(trip: LastTrip, dataset: seq<City>, city: Option<string>)
  {
    city.Some? && FindCity(dataset, city.value).Some?
    && (trip.selectedHotel.Some? || dataset[FindCity(dataset, city.value).value].hotels != [])
  }

  /** The part of `generate_itinerary` after the guards, as it goes when every value fits:
      with the destination at index `k` of the dataset and the hotel settled, shuffle,
      select, cost, record and remember. */
  function Draft(trip: LastTrip, dataset: seq<City>, k: nat, hotel: Hotel, source: Option<string>, city: string,
                 days: nat, budget: nat, quote: FlightQuote, roll: nat -> nat): Outcome
    requires k < |dataset|
  {
    var remaining := budget - quote.price;
    var shuffled := Shuffle(dataset[k].attractions, roll);
    var selected := Take(shuffled, 2 * days);
    var hotelCost := hotel.pricePerNight * days;
    var attractionCost := SumFees(selected);
    var misc := MiscCost(remaining);
    var total := quote.price + hotelCost + attractionCost + misc;
    var cost := Breakdown(quote.price, hotelCost, attractionCost, misc, total);
    var record := TripRecord(source, city, days, budget, total, hotel.name, Join(", ", Names(selected)));
    var report := Report(source, city, days, budget, quote.distance, remaining, hotel,
                         selected, Schedule(days, |selected|), cost, budget - total);
    var trip' := trip.(source := source, city := Some(city), budget := Some(budget), days := Some(days),
                       hotels := Some(dataset[k].hotels), selectedHotel := Some(hotel),
                       chosen := Some(selected), attractionsAll := Some(shuffled));
    Outcome(Plan(report), trip', dataset[k := dataset[k].(attractions := shuffled)], Some(record))
  }

  /** Lines 152-183: the draft, unless line 157 cannot turn the remainder into a float or the
      INSERT rejects the row. Both raise after the in-place shuffle and before the row and
      the session are written. */
  function Planned(trip: LastTrip, dataset: seq<City>, k: nat, hotel: Hotel, source: Option<string>, city: string,
                   days: nat, budget: nat, quote: FlightQuote, roll: nat -> nat): Outcome
    requires k < |dataset|
  {
    var d := Draft(trip, dataset, k, hotel, source, city, days, budget, quote, roll);
    if !FloatFits(budget - quote.price) then Outcome(Crash(FloatOverflow), trip, d.dataset, None)
    else if !Storable(d.record.value) then Outcome(Crash(StorageOverflow), trip, d.dataset, None)
    else d
  }

  /** How the guards of `generate_itinerary` end: a refusal, or the destination's index in
      the dataset together with the hotel for the stay. */
  datatype Settlement = Refused(reply: Reply) | Settled(k: nat, hotel: Hotel)

  /** Lines 129-148: the destination must be named and in the dataset, and a hotel must be
      had against what the flight leaves of the budget; without a selected hotel that
      remainder is first turned into a float (line 146). */
  function Settle(selected: Option<Hotel>, dataset: seq<City>, city: Option<string>, days: nat, budget: nat,
                  quote: FlightQuote, pick: nat): (s: Settlement)
    ensures s.Settled? ==> city.Some? && s.k < |dataset|
  {
    if city.None? then Refused(DestinationNotRecognized)
    else
      var found := FindCity(dataset, city.value);
      if found.None? then Refused(NotInDataset(city.value))
      else if selected.None? && !FloatFits(budget - quote.price) then Refused(Crash(FloatOverflow))
      else
        var choice := ChooseHotel(selected, dataset[found.value].hotels, days, budget - quote.price, pick);
        if choice.None? then Refused(Crash(EmptyHotelList))
        else Settled(found.value, choice.value)
  }

  /** What the guards decide: no destination and an unknown destination are refused with
      their messages; without a selected hotel, a remainder too large for a float raises at
      line 146 and a known city without hotels raises in `min()`; otherwise the plan is settled on the first dataset city of that name, with the
      selected hotel or else one of the city's hotels. */
  lemma SettleMeans(selected: Option<Hotel>, dataset: seq<City>, city: Option<string>, days: nat, budget: nat,
                    quote: FlightQuote, pick: nat)
    ensures var s := Settle(selected, dataset, city, days, budget, quote, pick);
            (city.None? ==> s == Refused(DestinationNotRecognized))
            && (city.Some? && FindCity(dataset, city.value).None? ==> s == Refused(NotInDataset(city.value)))
            && (city.Some? && FindCity(dataset, city.value).Some? && !s.Settled? ==>
                  selected.None?
                  && (!FloatFits(budget - quote.price) ==> s == Refused(Crash(FloatOverflow)))
                  && (FloatFits(budget - quote.price) ==>
                        dataset[FindCity(dataset, city.value).value].hotels == []
                        && s == Refused(Crash(EmptyHotelList))))
            && (s.Settled? ==> city.Some? && FindCity(dataset, city.value) == Some(s.k)
                               && (selected.Some? ==> s.hotel == selected.value)
                               && (selected.None? ==> s.hotel in dataset[s.k].hotels))
  {
  }

  /** `generate_itinerary(source, city, days, budget)` on session `trip` and `dataset`. */
  function Generation(trip: LastTrip, dataset: seq<City>, source: Option<string>, city: Option<string>,
                      days: nat, budget: nat, distanceKm: real, dice: Dice): Outcome
    requires distanceKm >= 0.0
  {
    var quote := FlightCost(source, city, distanceKm);
    match Settle(trip.selectedHotel, dataset, city, days, budget, quote, dice.hotelPick)
    case Refused(reply) => Outcome(reply, trip, dataset, None)
    case Settled(k, hotel) => Planned(trip, dataset, k, hotel, source, city.value, days, budget, quote, dice.swapRoll)
  }

  /** None of the numbers of the request overflows: the budget left after the flight turns
      into a float, and the row the plan would insert fits the table. */
  predicate Fits(trip: LastTrip, dataset: seq<City>, source: Option<string>, city: Option<string>,
                 days: nat, budget: nat, distanceKm: real, dice: Dice)
    requires distanceKm >= 0.0
  {
    var quote := FlightCost(source, city, distanceKm);
    FloatFits(budget - quote.price)
    && match Settle(trip.selectedHotel, dataset, city, days, budget, quote, dice.hotelPick)
       case Refused(_) => true
       case Settled(k, hotel) =>
         Storable(Draft(trip, dataset, k, hotel, source, city.value, days, budget, quote, dice.swapRoll).record.value)
  }

  /** An absent or unknown destination answers with a message and changes nothing: no row,
      no session change, no shuffle. */
  lemma GenerationRefusesUnknownCity(trip: LastTrip, dataset: seq<City>, source: Option<string>, city: Option<string>,
                                     days: nat, budget: nat, distanceKm: real, dice: Dice)
    requires distanceKm >= 0.0
    requires city.None? || FindCity(dataset, city.value).None?
    ensures var o := Generation(trip, dataset, source, city, days, budget, distanceKm, dice);
            o.trip == trip && o.dataset == dataset && o.record.None?
            && o.reply == if city.None? then DestinationNotRecognized else NotInDataset(city.value)
  {
  }

  /** A generation goes through exactly when the city is known, a hotel can be had and no
      number overflows. Otherwise no row is written and the session is kept; the dataset is
      kept too, except after an overflow past the shuffle. */
  lemma GenerationSucceedsIffPlannable(trip: LastTrip, dataset: seq<City>, source: Option<string>, city: Option<string>,
                                       days: nat, budget: nat, distanceKm: real, dice: Dice)
    requires distanceKm >= 0.0
    ensures var o := Generation(trip, dataset, source, city, days, budget, distanceKm, dice);
            (o.reply.Plan? <==> Plannable(trip, dataset, city) && Fits(trip, dataset, source, city, days, budget, distanceKm, dice))
            && (o.record.Some? <==> o.reply.Plan?)
            && (!o.reply.Plan? ==> o.trip == trip)
            && (!Plannable(trip, dataset, city) ==> o.dataset == dataset)
  {
    GenerationCases(trip, dataset, source, city, days, budget, distanceKm, dice);
    SettleMeans(trip.selectedHotel, dataset, city, days, budget, FlightCost(source, city, distanceKm), dice.hotelPick);
  }

  /** A plannable request whose numbers overflow raises OverflowError: a remainder too large
      for a float raises at line 146 before the shuffle when no hotel is selected, and at
      line 157 after it otherwise; a days, budget or total outside 64 bits raises at the
      INSERT, after the shuffle. No row is written and the session is kept. A budget or a
      duration of 2^63 or more always overflows. */
  lemma GenerationOverflows(trip: LastTrip, dataset: seq<City>, source: Option<string>, city: Option<string>,
                            days: nat, budget: nat, distanceKm: real, dice: Dice)
    requires distanceKm >= 0.0 && Plannable(trip, dataset, city)
    ensures var o := Generation(trip, dataset, source, city, days, budget, distanceKm, dice);
            var remaining := budget - FlightCost(source, city, distanceKm).price;
            var k := FindCity(dataset, city.value).value;
            var fits := Fits(trip, dataset, source, city, days, budget, distanceKm, dice);
            (!fits <==> o.reply == Crash(FloatOverflow) || o.reply == Crash(StorageOverflow))
            && (o.reply == Crash(FloatOverflow) <==> !FloatFits(remaining))
            && (!fits ==> o.trip == trip && o.record.None? && |o.dataset| == |dataset|)
            && (!FloatFits(remaining) && trip.selectedHotel.None? ==> o.dataset == dataset)
            && (!fits && (FloatFits(remaining) || trip.selectedHotel.Some?) ==>
                  o.dataset[k].attractions == Shuffle(dataset[k].attractions, dice.swapRoll))
            && (budget >= TwoTo64 / 2 || days >= TwoTo64 / 2 ==> !fits)
  {
    GenerationCases(trip, dataset, source, city, days, budget, distanceKm, dice);
    PlannableSettles(trip, dataset, city, days, budget, FlightCost(source, city, distanceKm), dice.hotelPick);
  }

  /** When the destination is known and a hotel can be had, the guards let the plan through
      for the first dataset city of that name. */
  lemma PlannableSettles(trip: LastTrip, dataset: seq<City>, city: Option<string>, days: nat, budget: nat,
                         quote: FlightQuote, pick: nat)
    requires Plannable(trip, dataset, city)
    ensures var s := Settle(trip.selectedHotel, dataset, city, days, budget, quote, pick);
            (s.Settled? <==> trip.selectedHotel.Some? || FloatFits(budget - quote.price))
            && (s.Settled? ==> s.k == FindCity(dataset, city.value).value)
  {
  }

  /** A generation is refused by the guards, or it is the draft of its settled city and
      hotel, or it raises OverflowError with the draft's dataset and nothing else written. */
  lemma GenerationCases(trip: LastTrip, dataset: seq<City>, source: Option<string>, city: Option<string>,
                        days: nat, budget: nat, distanceKm: real, dice: Dice)
    requires distanceKm >= 0.0
    ensures var quote := FlightCost(source, city, distanceKm);
            var s := Settle(trip.selectedHotel, dataset, city, days, budget, quote, dice.hotelPick);
            var o := Generation(trip, dataset, source, city, days, budget, distanceKm, dice);
            var fits := Fits(trip, dataset, source, city, days, budget, distanceKm, dice);
            (s.Refused? ==> o == Outcome(s.reply, trip, dataset, None))
            && (s.Settled? ==>
                  var d := Draft(trip, dataset, s.k, s.hotel, source, city.value, days, budget, quote, dice.swapRoll);
                  d.reply.Plan? && d.record.Some?
                  && (fits ==> o == d)
                  && (!fits ==> o.reply.Crash? && o.trip == trip && o.dataset == d.dataset && o.record.None?))
  {
  }

  /** When nothing stops it, a generation is the draft of its settled city and hotel. */
  lemma GenerationIsDraft(trip: LastTrip, dataset: seq<City>, source: Option<string>, city: Option<string>,
                          days: nat, budget: nat, distanceKm: real, dice: Dice)
    requires distanceKm >= 0.0 && Plannable(trip, dataset, city)
    requires Fits(trip, dataset, source, city, days, budget, distanceKm, dice)
    ensures var quote := FlightCost(source, city, distanceKm);
            var s := Settle(trip.selectedHotel, dataset, city, days, budget, quote, dice.hotelPick);
            s.Settled? && s.k == FindCity(dataset, city.value).value
            && Generation(trip, dataset, source, city, days, budget, distanceKm, dice)
               == Draft(trip, dataset, s.k, s.hotel, source, city.value, days, budget, quote, dice.swapRoll)
  {
    PlannableSettles(trip, dataset, city, days, budget, FlightCost(source, city, distanceKm), dice.hotelPick);
  }

  /** A successful generation inserts one row describing the plan and overwrites all eight
      session fields with it; only the hotels listed by type survive. */
  lemma GenerationOverwritesSession(trip: LastTrip, dataset: seq<City>, source: Option<string>, city: Option<string>,
                                    days: nat, budget: nat, distanceKm: real, dice: Dice)
    requires distanceKm >= 0.0 && Plannable(trip, dataset, city)
    requires Fits(trip, dataset, source, city, days, budget, distanceKm, dice)
    ensures var o := Generation(trip, dataset, source, city, days, budget, distanceKm, dice);
            var k := FindCity(dataset, city.value).value;
            o.reply.Plan? && o.record.Some?
            && o.trip.source == source && o.trip.city == city
            && o.trip.days == Some(days) && o.trip.budget == Some(budget)
            && o.trip.hotels == Some(dataset[k].hotels)
            && o.trip.selectedHotel == Some(o.reply.report.hotel)
            && o.trip.chosen == Some(o.reply.report.attractions)
            && o.trip.attractionsAll == Some(o.dataset[k].attractions)
            && o.trip.filtered == trip.filtered
            && o.record.value == TripRecord(source, city.value, days, budget, o.reply.report.cost.total,
                                            o.reply.report.hotel.name, Join(", ", Names(o.reply.report.attractions)))
            && Storable(o.record.value)
  {
    GenerationIsDraft(trip, dataset, source, city, days, budget, distanceKm, dice);
  }

  /** In the dataset a generation past the guards reorders the destination's attraction
      list, to a permutation of itself, and changes nothing else; the shuffle stays even when
      a later step raises. */
  lemma GenerationShufflesDestination(trip: LastTrip, dataset: seq<City>, source: Option<string>, city: Option<string>,
                                      days: nat, budget: nat, distanceKm: real, dice: Dice)
    requires distanceKm >= 0.0 && Plannable(trip, dataset, city)
    ensures var o := Generation(trip, dataset, source, city, days, budget, distanceKm, dice);
            var k := FindCity(dataset, city.value).value;
            |o.dataset| == |dataset|
            && (forall j :: 0 <= j < |dataset| && j != k ==> o.dataset[j] == dataset[j])
            && o.dataset[k].name == dataset[k].name && o.dataset[k].hotels == dataset[k].hotels
            && multiset(o.dataset[k].attractions) == multiset(dataset[k].attractions)
  {
    GenerationCases(trip, dataset, source, city, days, budget, distanceKm, dice);
    PlannableSettles(trip, dataset, city, days, budget, FlightCost(source, city, distanceKm), dice.hotelPick);
  }

  /** The hotel is the reused selection, or one whose stay fits 60% of what the flight
      leaves, or failing that the first cheapest. */
  lemma GenerationHotel(trip: LastTrip, dataset: seq<City>, source: Option<string>, city: Option<string>,
                        days: nat, budget: nat, distanceKm: real, dice: Dice)
    requires distanceKm >= 0.0 && Plannable(trip, dataset, city)
    requires Fits(trip, dataset, source, city, days, budget, distanceKm, dice)
    ensures var o := Generation(trip, dataset, source, city, days, budget, distanceKm, dice);
            var hotels := dataset[FindCity(dataset, city.value).value].hotels;
            var remaining := budget - FlightCost(source, city, distanceKm).price;
            var h := o.reply.report.hotel;
            o.reply.Plan? && o.reply.report.remaining == remaining
            && (trip.selectedHotel.Some? ==> h == trip.selectedHotel.value)
            && (trip.selectedHotel.None? && (exists v :: v in hotels && Viable(v, days, remaining)) ==>
                  h in hotels && Viable(h, days, remaining))
            && (trip.selectedHotel.None? && (forall v :: v in hotels ==> !Viable(v, days, remaining)) ==>
                  IsFirstCheapest(hotels, h))
  {
    GenerationIsDraft(trip, dataset, source, city, days, budget, distanceKm, dice);
  }

  /** The selected attractions are the first `2 * days` of a permutation of the city's
      attraction list, and there are exactly `min(2 * days, len(attractions))` of them, each
      printed once under day `i / 2 + 1`. */
  lemma GenerationSelection(trip: LastTrip, dataset: seq<City>, source: Option<string>, city: Option<string>,
                            days: nat, budget: nat, distanceKm: real, dice: Dice)
    requires distanceKm >= 0.0 && Plannable(trip, dataset, city)
    requires Fits(trip, dataset, source, city, days, budget, distanceKm, dice)
    ensures var o := Generation(trip, dataset, source, city, days, budget, distanceKm, dice);
            var pool := dataset[FindCity(dataset, city.value).value].attractions;
            var shuffled := o.trip.attractionsAll.value;
            var selected := o.reply.report.attractions;
            o.reply.Plan? && o.trip.attractionsAll.Some?
            && multiset(shuffled) == multiset(pool)
            && |selected| == Min(2 * days, |pool|)
            && selected == shuffled[..|selected|]
            && |o.reply.report.schedule| == days
            && (forall i :: 0 <= i < |selected| ==> i in o.reply.report.schedule[i / 2])
  {
    GenerationIsDraft(trip, dataset, source, city, days, budget, distanceKm, dice);
    var o := Generation(trip, dataset, source, city, days, budget, distanceKm, dice);
    ScheduleCoversSelection(days, |o.reply.report.attractions|);
  }

  /** The total is exactly the sum of flight, hotel, entry fees and incidentals, where the
      incidentals are 15% of the post-flight remainder truncated toward zero, and the
      reported leftover is budget minus total. */
  lemma GenerationTotals(trip: LastTrip, dataset: seq<City>, source: Option<string>, city: Option<string>,
                         days: nat, budget: nat, distanceKm: real, dice: Dice)
    requires distanceKm >= 0.0 && Plannable(trip, dataset, city)
    requires Fits(trip, dataset, source, city, days, budget, distanceKm, dice)
    ensures var o := Generation(trip, dataset, source, city, days, budget, distanceKm, dice);
            var c := o.reply.report.cost;
            var remaining := budget - c.flight;
            o.reply.Plan?
            && c.flight == FlightCost(source, city, distanceKm).price
            && c.hotel == o.reply.report.hotel.pricePerNight * days
            && c.attractions == SumFees(o.reply.report.attractions)
            && (remaining >= 0 ==> 100 * c.misc <= 15 * remaining < 100 * c.misc + 100)
            && (remaining < 0 ==> 100 * c.misc - 100 < 15 * remaining <= 100 * c.misc)
            && c.total == c.flight + c.hotel + c.attractions + c.misc
            && o.reply.report.leftover == budget - c.total
            && o.record.value.totalCost == c.total
  {
    GenerationIsDraft(trip, dataset, source, city, days, budget, distanceKm, dice);
  }

  /** Line 183 stores the chosen hotel as the selection, so after one successful plan the
      next generation that goes through reuses that hotel, whatever its city. */
  lemma SelectedHotelSticks(trip: LastTrip, dataset: seq<City>,
                            source1: Option<string>, city1: Option<string>, days1: nat, budget1: nat, km1: real, dice1: Dice,
                            source2: Option<string>, city2: Option<string>, days2: nat, budget2: nat, km2: real, dice2: Dice)
    requires km1 >= 0.0 && km2 >= 0.0
    requires Generation(trip, dataset, source1, city1, days1, budget1, km1, dice1).reply.Plan?
    ensures var o1 := Generation(trip, dataset, source1, city1, days1, budget1, km1, dice1);
            var o2 := Generation(o1.trip, o1.dataset, source2, city2, days2, budget2, km2, dice2);
            (Plannable(o1.trip, o1.dataset, city2) <==> city2.Some? && FindCity(o1.dataset, city2.value).Some?)
            && (o2.reply.Plan? ==> o2.reply.report.hotel == o1.reply.report.hotel)
  {
    var o1 := Generation(trip, dataset, source1, city1, days1, budget1, km1, dice1);
    GenerationSucceedsIffPlannable(trip, dataset, source1, city1, days1, budget1, km1, dice1);
    GenerationOverwritesSession(trip, dataset, source1, city1, days1, budget1, km1, dice1);
    var o2 := Generation(o1.trip, o1.dataset, source2, city2, days2, budget2, km2, dice2);
    GenerationSucceedsIffPlannable(o1.trip, o1.dataset, source2, city2, days2, budget2, km2, dice2);
    if o2.reply.Plan? {
      GenerationHotel(o1.trip, o1.dataset, source2, city2, days2, budget2, km2, dice2);
    }
  }

  /** The generator never reads the session's chosen attractions: whatever they hold, the
      reply, the dataset, the record and (when it goes through) the new session are the same. */
  lemma GenerationIgnoresChosen(trip: LastTrip, chosen: Option<seq<Attraction>>, dataset: seq<City>,
                                source: Option<string>, city: Option<string>,
                                days: nat, budget: nat, distanceKm: real, dice: Dice)
    requires distanceKm >= 0.0
    ensures var o1 := Generation(trip, dataset, source, city, days, budget, distanceKm, dice);
            var o2 := Generation(trip.(chosen := chosen), dataset, source, city, days, budget, distanceKm, dice);
            o1.reply == o2.reply && o1.dataset == o2.dataset && o1.record == o2.record
            && (o1.reply.Plan? ==> o1.trip == o2.trip)
  {
    GenerationCases(trip, dataset, source, city, days, budget, distanceKm, dice);
    GenerationCases(trip.(chosen := chosen), dataset, source, city, days, budget, distanceKm, dice);
  }

  /** Generation never touches the hotels listed by type. */
  lemma GenerationKeepsFiltered(trip: LastTrip, dataset: seq<City>, source: Option<string>, city: Option<string>,
                                days: nat, budget: nat, distanceKm: real, dice: Dice)
    requires distanceKm >= 0.0
    ensures Generation(trip, dataset, source, city, days, budget, distanceKm, dice).trip.filtered == trip.filtered
  {
    GenerationCases(trip, dataset, source, city, days, budget, distanceKm, dice);
  }

  /** Generation keeps the session invariant. */
  lemma GenerationPreservesWellFormed(trip: LastTrip, dataset: seq<City>, source: Option<string>, city: Option<string>,
                                      days: nat, budget: nat, distanceKm: real, dice: Dice)
    requires distanceKm >= 0.0 && WellFormed(trip)
    ensures WellFormed(Generation(trip, dataset, source, city, days, budget, distanceKm, dice).trip)
  {
    GenerationCases(trip, dataset, source, city, days, budget, distanceKm, dice);
  }
}
