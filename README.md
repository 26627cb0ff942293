# Travel assistant: a verified model of the trip planner

The travel assistant (`sample.py`) is a console chat bot. It reads a free-text request
("plan a 4 day trip from Mumbai to Paris under $5000") and pulls out four slots: source,
destination, number of days and budget. When destination, budget and source are all
present, it plans a trip. Anything else is a follow-up command that works on the current
session: recall the last trip, list hotels by type, book a listed hotel, or swap a day's
attractions for a category.

The program's state is a session dictionary `last_trip`, an append-only SQLite table of
past trips, and the loaded city dataset. `random.shuffle` reorders that dataset in place.

This Dafny project models that core.

- `Basics`, `Text`: Python's `None`, list comprehensions, `str.join` and the string
  operations the planner uses (`lower`, `in`, `strip`, `title`, digit runs). Character
  classes are ASCII.
- `Dataset`: hotels, attractions and cities, and the case-insensitive lookup of a city.
- `Flight`: `calculate_flight_cost`. There is a guard on the two airport names, then tier
  pricing at 0.08 per km above 3000 km and 0.12 per km otherwise, truncated. The
  great-circle distance is an input.
- `Parser`: `parse_user_request` and the routing test `city and budget and source`. A
  leftmost-match `re.search` is modelled for each numeric pattern. The dataset fallback
  for the destination uses whole-word matching.
- `Itinerary`: `generate_itinerary` as the function `Generation`. It maps the session, the
  dataset and the request to an `Outcome`: the reply, the new session, the new dataset and
  the inserted history row, if any.
  - The guards (`Settle`) and the planning step (`Planned`) are separate functions.
  - Lemmas state the hotel choice, the selection, the totals, the session overwrite, the
    in-place shuffle and the day layout.
- `FollowUpHandler`: `handle_follow_up` as the function `FollowUp`. It is the first-match
  chain recall / plan-first guard / listing / booking / category change / hint. It models
  Python's negative list indexing and slice assignment.
- `Assistant`: the class `Assistant`, with fields `lastTrip`, `history` and `dataset`.
  - Its methods update those fields in place, as the Python functions update the global
    dictionary, the table and the dataset.
  - Each method is proved to produce exactly the reply and the new state that `Generation`
    or `FollowUp` state.
  - `HandleMessage` is one turn of the chat loop.

Randomness is an explicit input, `Dice`:
- `random.choice(xs)` picks `xs[hotelPick % len(xs)]`;
- `random.shuffle` is CPython's backward Fisher-Yates, with swap partner `swapRoll(i) % (i + 1)`;
- `random.randint(1, n)` is `1 + dayPick % n`.

An uncaught Python exception is a `Crash` reply. The state stays as it was when the
exception was raised: nothing the failing step would still have written is written.
Everything written before the raise is kept. On the recall path, for example, line 241
restores source, city, days and budget before `min()` can raise at line 148. The model
keeps those restored fields as well (`RecallReplaysLatest` states them for every outcome).
The exceptions are:
- `min()` of a city without hotels;
- `IndexError` on a booking number;
- "day" with no number after it;
- `randint(1, 0)`;
- iterating a session entry that is still `None`;
- `OverflowError` when the budget left after the flight is too large for a float, at line
  146 (before the shuffle, when no hotel is selected) or at line 157 (after it);
- `OverflowError` at the INSERT (lines 160-172) when days, budget or total do not fit
  SQLite's 64-bit INTEGER. The shuffle at line 152 has already happened, so the dataset
  stays reordered, but no row is written and the session is kept (`GenerationOverflows`).

The model reproduces these quirks of the program:
- The hotel stored at line 183 is reused by every later plan until a booking replaces it,
  even for another city (`SelectedHotelSticks` states it for the next generation).
- The splice into `chosen_attractions` is thrown away by the regeneration that follows
  (`CategoryChangeDiscardsSplice`).
- Booking number 0 selects the last listed hotel (`BookingPicks`).
- A negative post-flight remainder always falls back to the cheapest hotel
  (`NegativeRemainderTakesCheapest`).
- The fare drops past 3000 km: every route between 3000 and 4500 km costs less than one of
  exactly 3000 km (`LongHaulFareDrop`).
- A destination found only by the dataset scan is never planned, because the source then
  stays empty (`PlannedIffRouteAndBudget`).

The program accepts a duration of 0 days ("0 days"), and the model allows it too.

## Model

| member | source | states |
|---|---|---|
| Text.Lower | sample.py:65 | `lower()` keeps the length and lower-cases each ASCII letter in place |
| Text.ContainsMeans | sample.py:233 | the substring test `p in s` holds exactly when `p` occurs in `s` at some index |
| Text.StripLeft | sample.py:69-70 | `lstrip` removes exactly the leading whitespace: the result is a suffix, everything removed is whitespace, and the result does not start with whitespace |
| Text.StripRight | sample.py:69-70 | `rstrip` removes exactly the trailing whitespace, in the same three parts |
| Text.Title | sample.py:69-70 | `title()` upper-cases a letter exactly when the character before it is not a letter, and lower-cases it otherwise |
| Text.DigitRun | sample.py:74-75 | `\d+` takes the maximal run of digits: every character in it is a digit and the next one is not |
| Text.NumberAt | sample.py:75 | no ensures; `int` of the digit run that starts at an index. Properties in Text.NumberAtDecimal |
| Text.DigitsValueDecimal | sample.py:75 | `int(str(n)) == n`: the digit value of the decimal numeral of `n` is `n` |
| Text.DecimalAt | sample.py:75 | a numeral that is not followed by a digit is a digit run of its own length and is read back as its value |
| Text.NumberAtDecimal | sample.py:75 | wherever a numeral stands in a text, with no digit after it, the number read there is its value |
| Basics.Filter | sample.py:147 | a list comprehension keeps exactly the elements that satisfy the condition and is no longer than its input |
| Basics.FilterAppend | sample.py:147 | a comprehension keeps list order: filtering distributes over concatenation |
| Dataset.FindCity | sample.py:133 | the lookup returns the first city whose lower-cased name equals the lower-cased request, and None only when no city matches |
| Flight.FlightCost | sample.py:95-119 | `(None, 0)` exactly when a name is empty or not a known airport; otherwise the distance is truncated, and the price is the distance times 0.08 above 3000 km or 0.12 at or below it, truncated |
| Flight.FlightCostSymmetric | sample.py:99-117 | swapping source and destination changes neither the guard nor the quote |
| Flight.LongHaulFareDrop | sample.py:116-117 | the tiers are not monotone: 3000 km costs 360, and a longer known route costs less than that exactly when it is shorter than 4500 km |
| Parser.BudgetAt | sample.py:74 | no ensures; the budget pattern tried at one start index. Properties in Parser.BudgetAtSpelled, Parser.BudgetAtReads |
| Parser.DaysAt | sample.py:78 | no ensures; the duration pattern tried at one start index. Properties in Parser.DaysAtSpelled, Parser.DaysAtReads |
| Parser.DayNumberAt | sample.py:300 | no ensures; the day-number pattern tried at one start index. Properties in Parser.DayNumberAtReads |
| Parser.KeywordEndAt | sample.py:74 | each of under / within / max / budget, where it occurs, ends the keyword alternation right after itself |
| Parser.BudgetAtSpelled | sample.py:74 | a keyword, one space, `$` and a number at an index make the budget pattern capture that number |
| Parser.BudgetAtReads | sample.py:74-75 | "<keyword> $<n>" at the start of a text is read back as budget `n`, for each keyword |
| Parser.DaysAtSpelled | sample.py:78 | a digit run, one space and "day" at the start make the duration pattern capture that number |
| Parser.DaysAtReads | sample.py:78-79 | "<n> day" at the start of a text is read back as `n` days |
| Parser.DayNumberAtReads | sample.py:300 | "day <n>" at the start of a text is read back as day `n` |
| Parser.Search | sample.py:74-79 | `re.search` returns None exactly when no start index matches; otherwise it returns what the leftmost matching start index captures |
| Parser.SearchLeftmost | sample.py:74-79 | given the leftmost matching start index, `re.search` returns exactly that index's capture |
| Parser.SearchAtStart | sample.py:74-79 | a match at index 0 is what `re.search` returns |
| Parser.SearchReadsBudget | sample.py:74-75 | a message that opens with "<keyword> $<n>" has budget `n` |
| Parser.SearchReadsDays | sample.py:78-79 | a message that opens with "<n> day" lasts `n` days |
| Parser.SearchReadsDayNumber | sample.py:300 | a message that opens with "day <n>" names day `n` |
| Parser.SearchReadsFirstNumber | sample.py:285 | booking reads the first number in the message: after a digit-free prefix, the numeral `n` is captured whole |
| Parser.ContainsWordMeans | sample.py:85 | `\bname\b` matches exactly when the name occurs between two word boundaries |
| Parser.FallbackCity | sample.py:82-87 | without a route the destination is the first dataset city, in dataset order, whose lower-cased name occurs as a whole word; None when there is none |
| Parser.ParseUserRequest | sample.py:64-90 | source and destination come only from the route groups, stripped and title-cased; otherwise the destination is the dataset fallback; the budget is the leftmost keyword-and-digits match; days default to 3 |
| Parser.ShouldPlan | sample.py:324 | no ensures; the routing test `city and budget and source`. Properties in Parser.PlannedIffRouteAndBudget |
| Parser.PlannedIffRouteAndBudget | sample.py:64-90 | a parsed message is planned exactly when the route pattern matched with two non-blank groups and the leftmost budget capture is not 0; a dataset-scan destination or a budget of 0 goes to the follow-up handler |
| Itinerary.ViableHotels | sample.py:146-147 | the viable hotels are exactly those whose stay costs at most 60% of the post-flight remainder |
| Itinerary.CheapestIndex | sample.py:148 | `min` by nightly price returns the first hotel whose price is minimal |
| Itinerary.ChooseHotel | sample.py:141-148 | a selected hotel is reused; otherwise a viable hotel when one exists; otherwise the first cheapest; fails only on a city without hotels |
| Itinerary.EveryViableHotelReachable | sample.py:148 | every viable hotel is the outcome of some draw of `random.choice` |
| Itinerary.NegativeRemainderTakesCheapest | sample.py:128-148 | the remainder is not clamped: when the flight exceeds the budget, the first cheapest hotel is chosen |
| Itinerary.Shuffle | sample.py:152 | `random.shuffle` yields a permutation of the list |
| Itinerary.Take | sample.py:153 | `xs[:n]` is the prefix of length `min(n, len(xs))` |
| Itinerary.MiscCost | sample.py:157 | `int(remaining * 0.15)` is 15% of the remainder truncated toward zero, for either sign |
| Itinerary.ScheduleCoversSelection | sample.py:204-212 | the layout has one entry per day, and each selected attraction `i` is printed exactly once, under day `i / 2 + 1` |
| Itinerary.DaySchedule | sample.py:204-212 | the nested rendering loop with its running index produces exactly that layout |
| Itinerary.Settle | sample.py:129-148 | ensures only that a settled index lies in the dataset. Properties in Itinerary.SettleMeans, Itinerary.PlannableSettles |
| Itinerary.SettleMeans | sample.py:129-148 | no destination and an unknown destination are refused with their messages; with no selection, a remainder too large for a float raises at line 146, and a known city with no hotel raises in `min()`; otherwise the plan settles on the first city of that name, with the selected hotel or else one of the city's hotels |
| Itinerary.Draft | sample.py:151-186 | no ensures; the step after the guards as it goes when no number overflows. Properties in Itinerary.GenerationIsDraft and the lemmas that use it |
| Itinerary.Planned | sample.py:151-186 | no ensures; the draft, or an `OverflowError` at line 157 or at the INSERT after the shuffle. Properties in Itinerary.GenerationCases, GenerationOverflows |
| Itinerary.Fits | sample.py:146-172 | no ensures; the remainder converts to a float and the row's integers fit 64 bits. Properties in Itinerary.GenerationSucceedsIffPlannable, GenerationOverflows |
| Itinerary.Generation | sample.py:124-186 | no ensures; `generate_itinerary` as a function of session, dataset and request. Properties in the Itinerary.Generation* lemmas and Itinerary.SelectedHotelSticks |
| Itinerary.GenerationRefusesUnknownCity | sample.py:130-136 | an absent or unknown destination answers with its message; no row is written, and neither the session nor the dataset changes |
| Itinerary.GenerationSucceedsIffPlannable | sample.py:124-186 | a plan goes through exactly when the city is known, a hotel can be had and no number overflows; it writes a row exactly when it goes through; otherwise the session is kept, and so is the dataset when the guards refuse |
| Itinerary.GenerationOverflows | sample.py:146-172 | a plannable request that overflows raises at line 146 before the shuffle without a selected hotel, and otherwise after it at line 157 or at the INSERT; no row is written and the session is kept; a budget or duration of 2^63 or more always overflows |
| Itinerary.GenerationCases | sample.py:124-186 | a generation is the guards' refusal with nothing changed, or the draft of the settled city and hotel, or an overflow crash that keeps the session and only the draft's shuffle |
| Itinerary.GenerationIsDraft | sample.py:133-186 | when the city is known, a hotel can be had and nothing overflows, the generation is the draft for the first dataset city of that name |
| Itinerary.PlannableSettles | sample.py:133-148 | when the city is known and a hotel can be had, the guards settle, on the first dataset city of that name, exactly when a hotel is selected or the remainder converts to a float |
| Itinerary.GenerationOverwritesSession | sample.py:160-186 | a successful plan inserts one row describing it, whose integers fit 64 bits, and overwrites all eight session fields with the plan |
| Itinerary.GenerationShufflesDestination | sample.py:152 | the destination's attraction list in the dataset is permuted in place, also when a later step raises, and nothing else in the dataset changes |
| Itinerary.GenerationHotel | sample.py:141-148 | the plan's hotel is the session's selection, or else a viable hotel, or else the first cheapest |
| Itinerary.GenerationSelection | sample.py:152-153 | the selected attractions are a prefix of a permutation of the city's list, of length `min(2 * days, len)`, each laid out under day `i / 2 + 1` |
| Itinerary.GenerationTotals | sample.py:155-158 | total = flight + nightly price × days + entry fees + truncated 15% of the remainder; leftover = budget − total; the row stores that total |
| Itinerary.SelectedHotelSticks | sample.py:142-143 | after one successful plan, the next generation that goes through reuses that hotel, whatever the city |
| Itinerary.GenerationIgnoresChosen | sample.py:177-186 | the generator never reads `chosen_attractions`: whatever it holds, the reply, the row, the dataset and the successful session are the same |
| Itinerary.GenerationKeepsFiltered | sample.py:177-186 | generation leaves the listed hotels alone |
| Itinerary.GenerationPreservesWellFormed | sample.py:177-186 | generation keeps the session invariant: a city is stored with its days and budget |
| FollowUpHandler.CategoryIn | sample.py:296-297 | the category is the first key of the category map, in map order, that occurs in the message; None exactly when none occurs |
| FollowUpHandler.HotelKindIn | sample.py:266-273 | no ensures; the hotel type a listing asks for. Properties in FollowUpHandler.HotelKindPriority |
| FollowUpHandler.HotelKindPriority | sample.py:266-273 | luxury wins whenever named, then mid-range, then budget; no type exactly when none of the three words occurs |
| FollowUpHandler.HotelsOfType | sample.py:266-271 | the listing keeps exactly the hotels whose lower-cased type equals the requested one |
| FollowUpHandler.Matching | sample.py:298 | the matching attractions are exactly those carrying one of the category's tags |
| FollowUpHandler.PyIndex | sample.py:288 | a Python index succeeds exactly within `-len..len-1`, and a negative index counts from the end |
| FollowUpHandler.DayOf | sample.py:300 | with "day" in the message, the day is the first number after "day", or an error when there is none; otherwise a random day in `1..days`, or an error when days is 0 |
| FollowUpHandler.SliceAssign | sample.py:303 | no ensures; Python's slice assignment with bound normalisation. Properties in FollowUpHandler.DaySplice, DayZeroInserts |
| FollowUpHandler.DaySplice | sample.py:302-303 | assigning to the two-slot slice of day `n` replaces those slots, shrinks the list when fewer than two match, and appends past the end |
| FollowUpHandler.DayZeroInserts | sample.py:302-303 | "day 0" gives the slice `[-2:0]`, which inserts before the last two elements |
| FollowUpHandler.Recall | sample.py:233-243 | no ensures; the recall branch. Properties in FollowUpHandler.RecallWithoutHistory, RecallReplaysLatest |
| FollowUpHandler.ListHotels | sample.py:265-280 | no ensures; the listing branch. Properties in FollowUpHandler.ListingFilters |
| FollowUpHandler.Book | sample.py:283-293 | no ensures; the booking branch. Properties in FollowUpHandler.BookingRefuses, BookingPicks |
| FollowUpHandler.ChangeCategory | sample.py:296-305 | no ensures; the category branch. Properties in FollowUpHandler.CategoryChangeDiscardsSplice, CategoryChangeDayFaults |
| FollowUpHandler.FollowUp | sample.py:229-307 | no ensures; `handle_follow_up` as a function of session, history, dataset and message. Properties in FollowUpHandler.PlanFirstGuard, FilteredChangesOnlyByListing, FollowUpPreservesWellFormed and the branch lemmas |
| FollowUpHandler.RecallWithoutHistory | sample.py:233-238 | recall with no history answers "No previous trips" and changes nothing |
| FollowUpHandler.RecallReplaysLatest | sample.py:240-243 | recall restores the latest row's source, city, days and budget, and plans again from them, keeping the selected hotel |
| FollowUpHandler.PlanFirstGuard | sample.py:252-253 | apart from recall, every follow-up answers "plan a trip first" without any change while no city is set |
| FollowUpHandler.ListingFilters | sample.py:265-280 | a listing asks for the type named first among luxury / mid / budget, lists exactly the session's hotels of that type and keeps them for booking |
| FollowUpHandler.BookingRefuses | sample.py:283-293 | with no number or no listing, booking answers "choose a valid option"; a number past the end raises IndexError; neither changes anything |
| FollowUpHandler.BookingPicks | sample.py:284-291 | booking number `n` selects `filtered[n - 1]`, where 0 picks the last hotel, and a regeneration that goes through uses that hotel |
| FollowUpHandler.CategoryChangeDiscardsSplice | sample.py:302-305 | when the regeneration goes through, the category change has the same outcome as regenerating without the splice |
| FollowUpHandler.CategoryChangeDayFaults | sample.py:300 | "day" without a number, or a random day drawn from an empty range, raises before anything changes |
| FollowUpHandler.FilteredChangesOnlyByListing | sample.py:275 | only the hotel listing changes the list that booking reads, and it sets that list to the hotels it lists |
| FollowUpHandler.FollowUpPreservesWellFormed | sample.py:229-307 | every follow-up keeps the session invariant |
| FollowUpHandler.FollowUpBranchesKeepSession | sample.py:229-307 | every follow-up keeps the session invariant, and every branch but the listing keeps the listed hotels |
| FollowUpHandler.RecallKeepsSession | sample.py:240-243 | recall keeps the listed hotels and leaves a session whose city comes with its days and budget |
| FollowUpHandler.BookKeepsSession | sample.py:283-293 | booking keeps the listed hotels and the session invariant |
| FollowUpHandler.ChangeCategoryKeepsSession | sample.py:296-305 | a category change keeps the listed hotels and the session invariant |
| Assistant.Assistant.constructor | sample.py:51-60 | a fresh process has an empty session, the loaded cities and the stored rows |
| Assistant.Assistant.GenerateItinerary | sample.py:124-224 | the in-place generation produces the reply, session, dataset and appended row that `Generation` states, and keeps the session invariant |
| Assistant.Assistant.Commit | sample.py:151-224 | once the guards pass: shuffle in place, then raise on an overflow, or else append the row, overwrite the session and lay out the days, exactly as `Planned` states |
| Assistant.Assistant.RecallLastTrip | sample.py:233-243 | the in-place recall matches `Recall` |
| Assistant.Assistant.ListHotelsByType | sample.py:265-280 | the in-place listing matches `ListHotels` and appends no row |
| Assistant.Assistant.BookHotel | sample.py:283-293 | the in-place booking matches `Book` |
| Assistant.Assistant.ChangeAttractions | sample.py:296-305 | the in-place category change matches `ChangeCategory` |
| Assistant.Assistant.HandleFollowUp | sample.py:229-307 | the in-place dispatcher matches `FollowUp` on the lower-cased message |
| Assistant.Assistant.HandleMessage | sample.py:322-327 | one chat turn parses the message, plans when city, budget and source are all truthy, and otherwise handles a follow-up |

## Left out

- SQLite: the connection, the schema, commits, and the row id and timestamp (`datetime.now()`) are not modelled. The history is a sequence of rows, oldest first. The latest row stands for `ORDER BY id DESC LIMIT 1`. Rows stored before the process started are the constructor's `rows` argument.
- JSON loading of the dataset is not modelled. The loaded cities are the constructor's `cities` argument.
- The console loop, `input`/`print`, the exit words and the text of each reply (emoji, formatting) are not modelled. A reply is a datatype carrying the values the text shows. The day layout is kept as index lists.
- The haversine formula is not modelled, because it is floating-point trigonometry. The distance between the two airports is the input `distanceKm >= 0`.
- Float arithmetic is exact in the model:
  - the 60% hotel cap is `100 × cost ≤ 60 × remaining`;
  - the 15% incidentals are truncated exactly;
  - the fare is `floor(distance × rate)` on exact reals, not IEEE doubles.
  - of the int-to-float conversions only the overflow is kept (`FloatFits`: from
    2^1024 − 2^970 in magnitude, where rounding to the nearest double reaches 2^1024).
- The `from … to …` route regex (line 68) is not modelled as a regex. Its two raw groups are an input; the stripping and title-casing of those groups is modelled.
- Whole-word city matching (line 85) treats the city name literally. The program splices the name into a regex; the model assumes that no city name contains a regex metacharacter.
- Character classes, `lower`, `title` and `isspace` cover ASCII only; Unicode case mapping is not modelled.
- Attraction categories are a list of tags. The test `x in a["category"]` is list membership; a `category` field that is a plain string, where `in` would be a substring test, is not modelled.
- Itinerary.Shuffle: proves that the result is a permutation. It does not prove that every permutation is reachable by some draw.
- Flight.FlightCostSymmetric: takes the same distance in both directions, because the distance is an input and the symmetry of haversine is not modelled.
- After a `Crash` reply the class goes on serving commands with the state it holds. The program has no `try` around the chat loop (lines 322-327), so the Python process ends instead, and the session and the shuffled attraction order are lost with it.
- Prices and fees are whole numbers: `pricePerNight` and `entryFee` are natural numbers. The program multiplies and sums whatever numbers the dataset holds, so fractional or negative prices are not modelled.
- Parser.ParseUserRequest: reads numerals of any length. Python 3.11 and later refuse to convert a numeral of more than 4300 digits with `int()` (lines 75, 79, 287, 300) and raise ValueError; that limit depends on the interpreter version and its configuration, so it is not modelled.
- Truthiness of a selected hotel: Python tests the hotel dictionary, and an empty dictionary would be falsy. The model treats any stored hotel as selected, because dataset hotels are never empty dictionaries.
