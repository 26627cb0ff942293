/** The assistant's mutable state and its three entry points: `generate_itinerary`,
    `handle_follow_up` and the routing step of the chat loop. The session dictionary, the
    loaded dataset (whose attraction lists `random.shuffle` reorders in place) and the rows of
    the trips table are fields that the methods update; each method is proved to perform
    exactly the step that `Itinerary.Generation` or `FollowUpHandler.FollowUp` states. */
module Assistant {
  import opened Basics
  import opened Text
  import opened Dataset
  import opened Flight
  import opened Parser
  import opened Itinerary
  import opened FollowUpHandler

  class Assistant {
    /** The session dictionary `last_trip`. */
    var lastTrip: LastTrip
    /** The rows of `trip_history`, oldest first. */
    var history: seq<TripRecord>
    /** `dataset["cities"]`. */
    var dataset: seq<City>

    ghost predicate Valid()
      reads this
    {
      WellFormed(lastTrip)
    }

    /** A fresh process: empty session, the loaded cities and the rows that the database
        file already holds. */
    constructor (cities: seq<City>, rows: seq<TripRecord>)
      ensures Valid()
      ensures lastTrip == EmptyTrip && history == rows && dataset == cities
    {
      lastTrip := EmptyTrip;
      history := rows;
      dataset := cities;
    }

    /** `generate_itinerary(source, city, days, budget)`. */
    method GenerateItinerary(source: Option<string>, city: Option<string>, days: nat, budget: nat,
                             distanceKm: real, dice: Dice) returns (reply: Reply)
      requires distanceKm >= 0.0
      requires Valid()
      modifies this
      ensures Valid()
      ensures var o := Generation(old(lastTrip), old(dataset), source, city, days, budget, distanceKm, dice);
              reply == o.reply && lastTrip == o.trip && dataset == o.dataset
              && history == old(history) + Recorded(o.record)
    {
      var quote := FlightCost(source, city, distanceKm);
      var settled := Settle(lastTrip.selectedHotel, dataset, city, days, budget, quote, dice.hotelPick);
      if settled.Refused? {
        return settled.reply;
      }
      reply := Commit(settled.k, settled.hotel, source, city.value, days, budget, quote, dice.swapRoll);
    }

    /** Lines 152-224, once the destination (index `k`) and the hotel are settled: shuffle the
        city's attractions in the loaded dataset, select, cost, insert the history row,
        overwrite the session and lay out the days. An OverflowError at line 157 or at the
        INSERT leaves the shuffle in place and writes nothing else. */
    method Commit(k: nat, hotel: Hotel, source: Option<string>, city: string, days: nat, budget: nat,
                  quote: FlightQuote, roll: nat -> nat) returns (reply: Reply)
      requires k < |dataset|
      requires Valid()
      modifies this
      ensures Valid()
      ensures var o := Planned(old(lastTrip), old(dataset), k, hotel, source, city, days, budget, quote, roll);
              reply == o.reply && lastTrip == o.trip && dataset == o.dataset
              && history == old(history) + Recorded(o.record)
    {
      var remaining := budget - quote.price;
      var cities := dataset;
      ghost var draft := Draft(lastTrip, cities, k, hotel, source, city, days, budget, quote, roll);

      // random.shuffle reorders the city's list inside the loaded dataset
      var shuffled := Shuffle(cities[k].attractions, roll);
      dataset := cities[k := cities[k].(attractions := shuffled)];
      assert dataset == draft.dataset;
      var selected := Take(shuffled, 2 * days);

      var hotelCost := hotel.pricePerNight * days;
      var attractionCost := SumFees(selected);
      if !FloatFits(remaining) {
        return Crash(FloatOverflow);
      }
      var misc := MiscCost(remaining);
      var total := quote.price + hotelCost + attractionCost + misc;
      var record := TripRecord(source, city, days, budget, total, hotel.name, Join(", ", Names(selected)));
      assert draft.record == Some(record);
      if !Storable(record) {
        return Crash(StorageOverflow);
      }
      history := history + [record];
      var schedule := DaySchedule(days, |selected|);
      lastTrip := lastTrip.(source := source, city := Some(city), budget := Some(budget), days := Some(days),
                            hotels := Some(cities[k].hotels), selectedHotel := Some(hotel),
                            chosen := Some(selected), attractionsAll := Some(shuffled));
      reply := Plan(Report(source, city, days, budget, quote.distance, remaining, hotel, selected, schedule,
                                Breakdown(quote.price, hotelCost, attractionCost, misc, total), budget - total));
    }

    /** The recall branch of `handle_follow_up`: restore the latest row and plan again. */
    method RecallLastTrip(distanceKm: real, dice: Dice) returns (reply: Reply)
      requires distanceKm >= 0.0
      requires Valid()
      modifies this
      ensures Valid()
      ensures var o := Recall(old(lastTrip), old(history), old(dataset), distanceKm, dice);
              reply == o.reply && lastTrip == o.trip && dataset == o.dataset
              && history == old(history) + Recorded(o.record)
    {
      if history == [] {
        return NoPreviousTrips;
      }
      var row := history[|history| - 1];
      lastTrip := lastTrip.(source := row.source, city := Some(row.destination),
                            days := Some(row.days), budget := Some(row.budget));
      reply := GenerateItinerary(row.source, Some(row.destination), row.days, row.budget, distanceKm, dice);
    }

    /** The hotel listing branch: keep and return the session's hotels of the named type. */
    method ListHotelsByType(m: string) returns (reply: Reply)
      requires Valid()
      modifies this
      ensures Valid()
      ensures var o := ListHotels(old(lastTrip), old(dataset), m);
              reply == o.reply && lastTrip == o.trip && dataset == o.dataset && history == old(history)
    {
      var kind := HotelKindIn(m);
      if kind.None? {
        return SpecifyHotelType;
      }
      if lastTrip.hotels.None? {
        return Crash(NoSessionData);
      }
      var filtered := HotelsOfType(lastTrip.hotels.value, kind.value);
      lastTrip := lastTrip.(filtered := filtered);
      return HotelListing(filtered);
    }

    /** The booking branch: select listed hotel number `n` and plan again. */
    method BookHotel(n: Option<nat>, days: nat, budget: nat, distanceKm: real, dice: Dice) returns (reply: Reply)
      requires distanceKm >= 0.0
      requires Valid()
      modifies this
      ensures Valid()
      ensures var o := Book(old(lastTrip), old(dataset), n, days, budget, distanceKm, dice);
              reply == o.reply && lastTrip == o.trip && dataset == o.dataset
              && history == old(history) + Recorded(o.record)
    {
      var filtered := lastTrip.filtered;
      if n.None? || filtered == [] {
        return ChooseValidOption;
      }
      var chosen := PyIndex(filtered, n.value - 1);
      if chosen.None? {
        return Crash(IndexOutOfRange);
      }
      var trip := lastTrip;
      lastTrip := trip.(selectedHotel := chosen);
      reply := GenerateItinerary(trip.source, trip.city, days, budget, distanceKm, dice);
    }

    /** The category branch: splice matching attractions into the day's slots, plan again. */
    method ChangeAttractions(m: string, category: Category, days: nat, budget: nat, distanceKm: real, dice: Dice)
      returns (reply: Reply)
      requires distanceKm >= 0.0
      requires Valid()
      modifies this
      ensures Valid()
      ensures var o := ChangeCategory(old(lastTrip), old(dataset), m, category, days, budget, distanceKm, dice);
              reply == o.reply && lastTrip == o.trip && dataset == o.dataset
              && history == old(history) + Recorded(o.record)
    {
      if lastTrip.attractionsAll.None? {
        return Crash(NoSessionData);
      }
      var matching := Matching(lastTrip.attractionsAll.value, Tags(category));
      var day := DayOf(m, days, dice.dayPick);
      if day.NoDay? {
        return Crash(day.fault);
      }
      if lastTrip.chosen.None? {
        return Crash(NoSessionData);
      }
      var trip := lastTrip;
      var start := (day.n - 1) * 2;
      lastTrip := trip.(chosen := Some(SliceAssign(trip.chosen.value, start, start + 2, Take(matching, 2))));
      reply := GenerateItinerary(trip.source, trip.city, days, budget, distanceKm, dice);
    }

    /** `handle_follow_up(msg)`: the first branch whose words occur in the lower-cased
        message runs. */
    method HandleFollowUp(msg: string, distanceKm: real, dice: Dice) returns (reply: Reply)
      requires distanceKm >= 0.0
      requires Valid()
      modifies this
      ensures Valid()
      ensures var o := FollowUp(old(lastTrip), old(history), old(dataset), msg, distanceKm, dice);
              reply == o.reply && lastTrip == o.trip && dataset == o.dataset
              && history == old(history) + Recorded(o.record)
    {
      var m := Lower(msg);
      if IsRecall(m) {
        reply := RecallLastTrip(distanceKm, dice);
      } else if !Truthy(lastTrip.city) {
        reply := PlanFirst;
      } else if IsListing(m) {
        reply := ListHotelsByType(m);
      } else if IsBooking(m) {
        reply := BookHotel(Search(NumberPattern, m), lastTrip.days.value, lastTrip.budget.value, distanceKm, dice);
      } else {
        var category := CategoryIn(m);
        if category.Some? {
          reply := ChangeAttractions(m, category.value, lastTrip.days.value, lastTrip.budget.value, distanceKm, dice);
        } else {
          reply := UsageHint;
        }
      }
    }

    /** One turn of the chat loop: parse the message, then plan when destination, budget and
        source are all truthy, and treat it as a follow-up otherwise. */
    method HandleMessage(userMsg: string, route: Option<(string, string)>, distanceKm: real, dice: Dice)
      returns (reply: Reply)
      requires distanceKm >= 0.0
      requires Valid()
      modifies this
      ensures Valid()
      ensures var req := ParseUserRequest(userMsg, route, old(dataset));
              var o := if ShouldPlan(req)
                       then Generation(old(lastTrip), old(dataset), req.source, req.destination, req.days,
                                       req.budget.value, distanceKm, dice)
                       else FollowUp(old(lastTrip), old(history), old(dataset), userMsg, distanceKm, dice);
              reply == o.reply && lastTrip == o.trip && dataset == o.dataset
              && history == old(history) + Recorded(o.record)
    {
      var req := ParseUserRequest(userMsg, route, dataset);
      if ShouldPlan(req) {
        reply := GenerateItinerary(req.source, req.destination, req.days, req.budget.value, distanceKm, dice);
      } else {
        reply := HandleFollowUp(userMsg, distanceKm, dice);
      }
    }
  }
}
