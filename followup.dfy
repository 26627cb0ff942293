/** The follow-up dispatcher (`handle_follow_up`): a first-match chain of substring tests on
    the lower-cased message — recall, the "no active trip" guard, hotel listing, booking,
    category change, usage hint. `FollowUp` states one command as a function of the session,
    the history and the dataset; `Assistant.HandleFollowUp` performs it in place. */
module FollowUpHandler {
  import opened Basics
  import opened Text
  import opened Dataset
  import opened Parser
  import opened Itinerary

  // ---------------------------------------------------------------- vocabulary

  /** The keys of `CATEGORY_MAP`, in its order. */
  datatype Category = Shopping | Museum | Food | Sightseeing

  function Rank(c: Category): nat
  {
    match c
    case Shopping => 0
    case Museum => 1
    case Food => 2
    case Sightseeing => 3
  }

  function Keyword(c: Category): string
  {
    match c
    case Shopping => "shopping"
    case Museum => "museum"
    case Food => "food"
    case Sightseeing => "sightseeing"
  }

  /** The attraction tags each category word stands for. */
  function Tags(c: Category): seq<string>
  {
    match c
    case Shopping => ["Shopping"]
    case Museum => ["Museum", "Cultural", "History"]
    case Food => ["Food", "Food & Culture"]
    case Sightseeing => ["Landmark", "Tour", "Nature", "Cultural"]
  }

  /** `next(cat for cat in CATEGORY_MAP if cat in msg)`: the first category, in map order,
      whose word occurs in the message. */
  function CategoryIn(m: string): (r: Option<Category>)
    ensures r.None? <==> forall c :: !Contains(m, Keyword(c))
    ensures r.Some? ==> Contains(m, Keyword(r.value))
    ensures r.Some? ==> forall c :: Rank(c) < Rank(r.value) ==> !Contains(m, Keyword(c))
  {
    if Contains(m, Keyword(Shopping)) then Some(Shopping)
    else if Contains(m, Keyword(Museum)) then Some(Museum)
    else if Contains(m, Keyword(Food)) then Some(Food)
    else if Contains(m, Keyword(Sightseeing)) then Some(Sightseeing)
    else None
  }

  /** The hotel type a listing asks for: the words are tried in the order luxury, mid, budget. */
  function HotelKindIn(m: string): Option<string>
  {
    if Contains(m, "luxury") then Some("luxury")
    else if Contains(m, "mid") then Some("mid-range")
    else if Contains(m, "budget") then Some("budget")
    else None
  }

  /** The listing asks for luxury whenever the word occurs, for mid-range when "mid" occurs
      without "luxury", for budget only when neither of those occurs, and names no type
      exactly when none of the three words occurs. */
  lemma HotelKindPriority(m: string)
    ensures Contains(m, "luxury") ==> HotelKindIn(m) == Some("luxury")
    ensures !Contains(m, "luxury") && Contains(m, "mid") ==> HotelKindIn(m) == Some("mid-range")
    ensures HotelKindIn(m) == Some("budget") <==> !Contains(m, "luxury") && !Contains(m, "mid") && Contains(m, "budget")
    ensures HotelKindIn(m).None? <==> !Contains(m, "luxury") && !Contains(m, "mid") && !Contains(m, "budget")
  {
  }

  /** `[h for h in hotels if h["type"].lower() == kind]`. */
  function HotelsOfType(hotels: seq<Hotel>, kind: string): (r: seq<Hotel>)
    ensures forall h :: h in r <==> h in hotels && Lower(h.kind) == kind
  {
    Filter(hotels, (h: Hotel) => Lower(h.kind) == kind)
  }

  /** `any(x in a["category"] for x in tags)`. */
  predicate HasTag(a: Attraction, tags: seq<string>)
  {
    exists x :: x in tags && x in a.categories
  }

  /** The attractions of the pool that carry one of the tags, in pool order. */
  function Matching(pool: seq<Attraction>, tags: seq<string>): (r: seq<Attraction>)
    ensures forall a :: a in r <==> a in pool && HasTag(a, tags)
  {
    Filter(pool, (a: Attraction) => HasTag(a, tags))
  }

  predicate IsRecall(m: string)
  {
    Contains(m, "show last") || Contains(m, "previous") || Contains(m, "last trip")
  }

  predicate IsListing(m: string)
  {
    Contains(m, "show") && Contains(m, "hotel")
  }

  predicate IsBooking(m: string)
  {
    Contains(m, "choose") || Contains(m, "book") || Contains(m, "select")
  }

  // ---------------------------------------------------------------- Python list semantics

  /** `xs[idx]` on a Python list: a negative index counts from the end; None is IndexError. */
  function PyIndex<T>(xs: seq<T>, idx: int): (r: Option<T>)
    ensures r.Some? <==> -|xs| <= idx < |xs|
    ensures 0 <= idx < |xs| ==> r == Some(xs[idx])
    ensures -|xs| <= idx < 0 ==> r == Some(xs[|xs| + idx])
  {
    if 0 <= idx < |xs| then Some(xs[idx])
    else if -|xs| <= idx < 0 then Some(xs[|xs| + idx])
    else None
  }

  /** How a slice bound is normalised on a list of length `n`: a negative bound counts
      from the end, and the result is clamped to `[0, n]`. */
  function SliceBound(i: int, n: nat): (b: nat)
    ensures b <= n
  {
    if i < 0 then (if i + n < 0 then 0 else i + n) else if i > n then n else i
  }

  /** The slice assignment `a[lo:hi] = m`: the normalised slice is replaced by `m`, and an
      empty or reversed slice becomes an insertion point. */
  function SliceAssign<T>(a: seq<T>, lo: int, hi: int, m: seq<T>): seq<T>
  {
    var l := SliceBound(lo, |a|);
    var h := SliceBound(hi, |a|);
    a[..l] + m + a[(if h < l then l else h)..]
  }

  /** Line 303 for a day `day >= 1`: the two slots of that day, as far as they exist, are
      replaced by `m`. Fewer than two matches shrink the list, and a day past the end appends. */
  lemma DaySplice<T>(a: seq<T>, day: nat, m: seq<T>)
    requires day >= 1 && |m| <= 2
    ensures var s := (day - 1) * 2;
            var r := SliceAssign(a, s, s + 2, m);
            var lo := Min(s, |a|);
            var hi := Min(s + 2, |a|);
            r == a[..lo] + m + a[hi..]
            && |r| == |a| - (hi - lo) + |m|
            && (s + 2 <= |a| && |m| < 2 ==> |r| < |a|)
            && (s >= |a| ==> r == a + m)
  {
    var s := (day - 1) * 2;
    if s >= |a| {
      assert a[..|a|] == a && a[|a|..] == [];
    }
  }

  /** "day 0" gives the slice `a[-2:0]`: nothing is replaced, and `m` is inserted before the
      last two elements. */
  lemma DayZeroInserts<T>(a: seq<T>, m: seq<T>)
    ensures var l := if |a| >= 2 then |a| - 2 else 0;
            SliceAssign(a, -2, 0, m) == a[..l] + m + a[l..]
  {
  }

  // ---------------------------------------------------------------- the dispatcher

  datatype DayChoice = Day(n: nat) | NoDay(fault: Fault)

  /** Line 300: the number after "day" when the message says "day", otherwise
      `random.randint(1, days)`. */
  function DayOf(m: string, days: nat, pick: nat): (r: DayChoice)
    ensures Contains(m, "day") && r.Day? ==> Search(DayNumberPattern, m) == Some(r.n)
    ensures Contains(m, "day") ==> (r.NoDay? <==> Search(DayNumberPattern, m).None?)
    ensures !Contains(m, "day") ==> (r.NoDay? <==> days == 0)
    ensures !Contains(m, "day") && r.Day? ==> 1 <= r.n <= days
  {
    if Contains(m, "day") then
      var n := Search(DayNumberPattern, m);
      if n.None? then NoDay(MissingDayNumber) else Day(n.value)
    else if days == 0 then NoDay(EmptyDayRange)
    else Day(1 + pick % days)
  }

  /** Lines 233-243: the most recent row of the trips table restores source, city, days and
      budget, and the trip is planned again from them. */
  function Recall(trip: LastTrip, history: seq<TripRecord>, dataset: seq<City>, distanceKm: real, dice: Dice): Outcome
    requires distanceKm >= 0.0
  {
    if history == [] then Outcome(NoPreviousTrips, trip, dataset, None)
    else
      var row := history[|history| - 1];
      var restored := trip.(source := row.source, city := Some(row.destination),
                            days := Some(row.days), budget := Some(row.budget));
      Generation(restored, dataset, row.source, Some(row.destination), row.days, row.budget, distanceKm, dice)
  }

  /** Lines 265-280: list the session's hotels of the requested type and keep the list. */
  function ListHotels(trip: LastTrip, dataset: seq<City>, m: string): Outcome
  {
    var kind := HotelKindIn(m);
    if kind.None? then Outcome(SpecifyHotelType, trip, dataset, None)
    else if trip.hotels.None? then Outcome(Crash(NoSessionData), trip, dataset, None)
    else
      var filtered := HotelsOfType(trip.hotels.value, kind.value);
      Outcome(HotelListing(filtered), trip.(filtered := filtered), dataset, None)
  }

  /** Lines 283-293: select a hotel from the last listing by its 1-based number `n`, the
      first number in the message, and plan again. */
  function Book(trip: LastTrip, dataset: seq<City>, n: Option<nat>, days: nat, budget: nat, distanceKm: real, dice: Dice): Outcome
    requires distanceKm >= 0.0
  {
    if n.None? || trip.filtered == [] then Outcome(ChooseValidOption, trip, dataset, None)
    else
      var chosen := PyIndex(trip.filtered, n.value - 1);
      if chosen.None? then Outcome(Crash(IndexOutOfRange), trip, dataset, None)
      else Generation(trip.(selectedHotel := chosen), dataset, trip.source, trip.city, days, budget, distanceKm, dice)
  }

  /** Lines 296-305: splice up to two attractions of the category into the chosen list at
      the day's slots, then plan again. */
  function ChangeCategory(trip: LastTrip, dataset: seq<City>, m: string, category: Category,
                          days: nat, budget: nat, distanceKm: real, dice: Dice): Outcome
    requires distanceKm >= 0.0
  {
    if trip.attractionsAll.None? then Outcome(Crash(NoSessionData), trip, dataset, None)
    else
      var matching := Matching(trip.attractionsAll.value, Tags(category));
      var day := DayOf(m, days, dice.dayPick);
      if day.NoDay? then Outcome(Crash(day.fault), trip, dataset, None)
      else if trip.chosen.None? then Outcome(Crash(NoSessionData), trip, dataset, None)
      else
        var start := (day.n - 1) * 2;
        var spliced := SliceAssign(trip.chosen.value, start, start + 2, Take(matching, 2));
        Generation(trip.(chosen := Some(spliced)), dataset, trip.source, trip.city, days, budget, distanceKm, dice)
  }

  /** `handle_follow_up(msg)` on session `trip`, history `history` and `dataset`: the first
      branch whose words occur in the lower-cased message runs. */
  function FollowUp(trip: LastTrip, history: seq<TripRecord>, dataset: seq<City>, msg: string,
                    distanceKm: real, dice: Dice): Outcome
    requires WellFormed(trip) && distanceKm >= 0.0
  {
    var m := Lower(msg);
    if IsRecall(m) then Recall(trip, history, dataset, distanceKm, dice)
    else if !Truthy(trip.city) then Outcome(PlanFirst, trip, dataset, None)
    else if IsListing(m) then ListHotels(trip, dataset, m)
    else if IsBooking(m) then Book(trip, dataset, Search(NumberPattern, m), trip.days.value, trip.budget.value, distanceKm, dice)
    else if CategoryIn(m).Some? then
      ChangeCategory(trip, dataset, m, CategoryIn(m).value, trip.days.value, trip.budget.value, distanceKm, dice)
    else Outcome(UsageHint, trip, dataset, None)
  }

  // ---------------------------------------------------------------- properties

  /** Recall with an empty history answers "No previous trips" and changes nothing. */
  lemma RecallWithoutHistory(trip: LastTrip, dataset: seq<City>, msg: string, distanceKm: real, dice: Dice)
    requires WellFormed(trip) && distanceKm >= 0.0 && IsRecall(Lower(msg))
    ensures var o := FollowUp(trip, [], dataset, msg, distanceKm, dice);
            o.reply == NoPreviousTrips && o.trip == trip && o.dataset == dataset && o.record.None?
  {
  }

  /** Recall restores source, city, days and budget from the most recent row and plans
      again from them; the hotel already selected in the session is kept and reused. */
  lemma RecallReplaysLatest(trip: LastTrip, history: seq<TripRecord>, dataset: seq<City>, distanceKm: real, dice: Dice)
    requires distanceKm >= 0.0 && history != []
    ensures var row := history[|history| - 1];
            var o := Recall(trip, history, dataset, distanceKm, dice);
            o.trip.source == row.source && o.trip.city == Some(row.destination)
            && o.trip.days == Some(row.days) && o.trip.budget == Some(row.budget)
            && (o.reply.Plan? ==>
                  o.reply.report.city == row.destination && o.reply.report.days == row.days
                  && o.reply.report.budget == row.budget
                  && (trip.selectedHotel.Some? ==> o.reply.report.hotel == trip.selectedHotel.value))
  {
    var row := history[|history| - 1];
    var restored := trip.(source := row.source, city := Some(row.destination),
                          days := Some(row.days), budget := Some(row.budget));
    GenerationSucceedsIffPlannable(restored, dataset, row.source, Some(row.destination), row.days, row.budget, distanceKm, dice);
    if Plannable(restored, dataset, Some(row.destination))
       && Fits(restored, dataset, row.source, Some(row.destination), row.days, row.budget, distanceKm, dice) {
      GenerationOverwritesSession(restored, dataset, row.source, Some(row.destination), row.days, row.budget, distanceKm, dice);
      GenerationHotel(restored, dataset, row.source, Some(row.destination), row.days, row.budget, distanceKm, dice);
    }
  }

  /** Apart from recall, nothing happens before a trip is planned. */
  lemma PlanFirstGuard(trip: LastTrip, history: seq<TripRecord>, dataset: seq<City>, msg: string,
                       distanceKm: real, dice: Dice)
    requires WellFormed(trip) && distanceKm >= 0.0 && !IsRecall(Lower(msg)) && !Truthy(trip.city)
    ensures var o := FollowUp(trip, history, dataset, msg, distanceKm, dice);
            o.reply == PlanFirst && o.trip == trip && o.dataset == dataset && o.record.None?
  {
  }

  /** "show ... hotel": the listed hotels are those of the session whose type matches the
      first of luxury / mid / budget named, and they become the list that booking reads. */
  lemma ListingFilters(trip: LastTrip, dataset: seq<City>, m: string)
    ensures var o := ListHotels(trip, dataset, m);
            var kind := HotelKindIn(m);
            o.dataset == dataset && o.record.None?
            && (kind.None? ==> o.reply == SpecifyHotelType && o.trip == trip)
            && (kind.Some? && trip.hotels.None? ==> o.reply == Crash(NoSessionData) && o.trip == trip)
            && (kind.Some? && trip.hotels.Some? ==>
                  o.reply.HotelListing? && o.trip == trip.(filtered := o.reply.hotels)
                  && forall h :: h in o.reply.hotels <==> h in trip.hotels.value && Lower(h.kind) == kind.value)
  {
  }

  /** Booking answers "choose a valid option" when the message has no number or nothing
      was listed, and raises IndexError for a number past the end of the listing; in both
      cases nothing changes. */
  lemma BookingRefuses(trip: LastTrip, dataset: seq<City>, n: Option<nat>, days: nat, budget: nat, distanceKm: real, dice: Dice)
    requires distanceKm >= 0.0
    ensures var o := Book(trip, dataset, n, days, budget, distanceKm, dice);
            var f := trip.filtered;
            (n.None? || f == [] ==> o.reply == ChooseValidOption && o.trip == trip && o.record.None?)
            && (n.Some? && n.value > |f| > 0 ==> o.reply == Crash(IndexOutOfRange) && o.trip == trip && o.record.None?)
  {
  }

  /** Booking number n picks `filtered[n - 1]` with Python indexing, so n = 0 wraps to the
      last hotel listed. The pick becomes the selection, and a regeneration that goes
      through uses it. */
  lemma BookingPicks(trip: LastTrip, dataset: seq<City>, n: nat, days: nat, budget: nat, distanceKm: real, dice: Dice)
    requires distanceKm >= 0.0 && trip.filtered != [] && n <= |trip.filtered|
    ensures var o := Book(trip, dataset, Some(n), days, budget, distanceKm, dice);
            var f := trip.filtered;
            var h := if n == 0 then f[|f| - 1] else f[n - 1];
            o.trip.selectedHotel == Some(h) && (o.reply.Plan? ==> o.reply.report.hotel == h)
  {
    var f := trip.filtered;
    var h := if n == 0 then f[|f| - 1] else f[n - 1];
    var t := trip.(selectedHotel := Some(h));
    assert PyIndex(f, n - 1) == Some(h);
    assert Book(trip, dataset, Some(n), days, budget, distanceKm, dice)
        == Generation(t, dataset, trip.source, trip.city, days, budget, distanceKm, dice);
    GenerationSucceedsIffPlannable(t, dataset, trip.source, trip.city, days, budget, distanceKm, dice);
    if Plannable(t, dataset, trip.city) && Fits(t, dataset, trip.source, trip.city, days, budget, distanceKm, dice) {
      GenerationHotel(t, dataset, trip.source, trip.city, days, budget, distanceKm, dice);
      GenerationOverwritesSession(t, dataset, trip.source, trip.city, days, budget, distanceKm, dice);
    }
  }

  /** The category change splices into `chosen_attractions`, but the regeneration that
      follows overwrites that list: when it goes through, the outcome is exactly that of
      regenerating without the splice. */
  lemma CategoryChangeDiscardsSplice(trip: LastTrip, dataset: seq<City>, m: string, category: Category,
                                     days: nat, budget: nat, distanceKm: real, dice: Dice)
    requires distanceKm >= 0.0
    ensures var o := ChangeCategory(trip, dataset, m, category, days, budget, distanceKm, dice);
            o.reply.Plan? ==> o == Generation(trip, dataset, trip.source, trip.city, days, budget, distanceKm, dice)
  {
    var o := ChangeCategory(trip, dataset, m, category, days, budget, distanceKm, dice);
    if o.reply.Plan? {
      var day := DayOf(m, days, dice.dayPick);
      var matching := Matching(trip.attractionsAll.value, Tags(category));
      var start := (day.n - 1) * 2;
      var spliced := SliceAssign(trip.chosen.value, start, start + 2, Take(matching, 2));
      GenerationIgnoresChosen(trip, Some(spliced), dataset, trip.source, trip.city, days, budget, distanceKm, dice);
    }
  }

  /** A category change whose day cannot be settled raises before anything changes: "day"
      without a number, or a random day drawn from an empty range. */
  lemma CategoryChangeDayFaults(trip: LastTrip, dataset: seq<City>, m: string, category: Category,
                                days: nat, budget: nat, distanceKm: real, dice: Dice)
    requires distanceKm >= 0.0 && trip.attractionsAll.Some?
    requires (Contains(m, "day") && Search(DayNumberPattern, m).None?) || (!Contains(m, "day") && days == 0)
    ensures var o := ChangeCategory(trip, dataset, m, category, days, budget, distanceKm, dice);
            o.reply.Crash? && o.trip == trip && o.dataset == dataset && o.record.None?
  {
  }

  /** Recall keeps the listed hotels and leaves a session that holds a city together with
      its days and budget. */
  lemma RecallKeepsSession(trip: LastTrip, history: seq<TripRecord>, dataset: seq<City>, distanceKm: real, dice: Dice)
    requires distanceKm >= 0.0
    ensures var o := Recall(trip, history, dataset, distanceKm, dice);
            o.trip.filtered == trip.filtered && (WellFormed(trip) ==> WellFormed(o.trip))
  {
    if history != [] {
      var row := history[|history| - 1];
      var restored := trip.(source := row.source, city := Some(row.destination),
                            days := Some(row.days), budget := Some(row.budget));
      GenerationKeepsFiltered(restored, dataset, row.source, Some(row.destination), row.days, row.budget, distanceKm, dice);
      GenerationPreservesWellFormed(restored, dataset, row.source, Some(row.destination), row.days, row.budget, distanceKm, dice);
    }
  }

  /** Booking keeps the listed hotels and the session invariant. */
  lemma BookKeepsSession(trip: LastTrip, dataset: seq<City>, n: Option<nat>, days: nat, budget: nat, distanceKm: real, dice: Dice)
    requires distanceKm >= 0.0
    ensures var o := Book(trip, dataset, n, days, budget, distanceKm, dice);
            o.trip.filtered == trip.filtered && (WellFormed(trip) ==> WellFormed(o.trip))
  {
    if n.Some? && trip.filtered != [] {
      var chosen := PyIndex(trip.filtered, n.value - 1);
      if chosen.Some? {
        var t := trip.(selectedHotel := chosen);
        assert Book(trip, dataset, n, days, budget, distanceKm, dice)
            == Generation(t, dataset, trip.source, trip.city, days, budget, distanceKm, dice);
        GenerationKeepsFiltered(t, dataset, trip.source, trip.city, days, budget, distanceKm, dice);
        if WellFormed(trip) {
          GenerationPreservesWellFormed(t, dataset, trip.source, trip.city, days, budget, distanceKm, dice);
        }
      }
    }
  }

  /** A category change keeps the listed hotels and the session invariant. */
  lemma ChangeCategoryKeepsSession(trip: LastTrip, dataset: seq<City>, m: string, category: Category,
                                   days: nat, budget: nat, distanceKm: real, dice: Dice)
    requires distanceKm >= 0.0
    ensures var o := ChangeCategory(trip, dataset, m, category, days, budget, distanceKm, dice);
            o.trip.filtered == trip.filtered && (WellFormed(trip) ==> WellFormed(o.trip))
  {
    if trip.attractionsAll.Some? && trip.chosen.Some? {
      var day := DayOf(m, days, dice.dayPick);
      if day.Day? {
        var matching := Matching(trip.attractionsAll.value, Tags(category));
        var start := (day.n - 1) * 2;
        var spliced := SliceAssign(trip.chosen.value, start, start + 2, Take(matching, 2));
        var t := trip.(chosen := Some(spliced));
        GenerationKeepsFiltered(t, dataset, trip.source, trip.city, days, budget, distanceKm, dice);
        if WellFormed(trip) {
          GenerationPreservesWellFormed(t, dataset, trip.source, trip.city, days, budget, distanceKm, dice);
        }
      }
    }
  }

  /** Only the hotel listing changes the list that booking reads. */
  lemma FilteredChangesOnlyByListing(trip: LastTrip, history: seq<TripRecord>, dataset: seq<City>, msg: string,
                                     distanceKm: real, dice: Dice)
    requires WellFormed(trip) && distanceKm >= 0.0
    ensures var o := FollowUp(trip, history, dataset, msg, distanceKm, dice);
            var m := Lower(msg);
            o.trip.filtered != trip.filtered ==>
              !IsRecall(m) && Truthy(trip.city) && IsListing(m) && o.reply.HotelListing?
              && o.trip.filtered == o.reply.hotels
  {
    FollowUpBranchesKeepSession(trip, history, dataset, msg, distanceKm, dice);
  }

  /** Every follow-up keeps the session invariant. */
  lemma FollowUpPreservesWellFormed(trip: LastTrip, history: seq<TripRecord>, dataset: seq<City>, msg: string,
                                    distanceKm: real, dice: Dice)
    requires WellFormed(trip) && distanceKm >= 0.0
    ensures WellFormed(FollowUp(trip, history, dataset, msg, distanceKm, dice).trip)
  {
    FollowUpBranchesKeepSession(trip, history, dataset, msg, distanceKm, dice);
  }

  /** Every branch but the listing keeps the listed hotels, and every branch keeps the
      session invariant. */
  lemma FollowUpBranchesKeepSession(trip: LastTrip, history: seq<TripRecord>, dataset: seq<City>, msg: string,
                                    distanceKm: real, dice: Dice)
    requires WellFormed(trip) && distanceKm >= 0.0
    ensures var o := FollowUp(trip, history, dataset, msg, distanceKm, dice);
            var m := Lower(msg);
            WellFormed(o.trip)
            && (!(!IsRecall(m) && Truthy(trip.city) && IsListing(m)) ==> o.trip.filtered == trip.filtered)
  {
    var m := Lower(msg);
    if IsRecall(m) {
      RecallKeepsSession(trip, history, dataset, distanceKm, dice);
    } else if Truthy(trip.city) && !IsListing(m) {
      if IsBooking(m) {
        BookKeepsSession(trip, dataset, Search(NumberPattern, m), trip.days.value, trip.budget.value, distanceKm, dice);
      } else if CategoryIn(m).Some? {
        ChangeCategoryKeepsSession(trip, dataset, m, CategoryIn(m).value, trip.days.value, trip.budget.value, distanceKm, dice);
      }
    }
  }
}
