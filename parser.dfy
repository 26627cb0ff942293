/** Slot extraction from a free-text request (`parse_user_request`) and the top-level
    routing test between planning and follow-up handling. */
module Parser {
  import opened Basics
  import opened Text
  import opened Dataset

  /** `(source, destination, days, budget)`. */
  datatype Request = Request(source: Option<string>, destination: Option<string>, days: nat, budget: Option<nat>)

  const DefaultDays: nat := 3

  /** The first index at or after `p` that is not whitespace (`\s*`). */
  function SkipSpaces(s: string, p: nat): (q: nat)
    requires p <= |s|
    ensures p <= q <= |s|
    ensures forall j :: p <= j < q ==> IsSpace(s[j])
    ensures q < |s| ==> !IsSpace(s[q])
    decreases |s| - p
  {
    if p < |s| && IsSpace(s[p]) then SkipSpaces(s, p + 1) else p
  }

  /** Where the alternation `(?:under|within|max|budget)` ends when tried at index `i`. */
  function KeywordEnd(s: string, i: nat): (e: Option<nat>)
    ensures e.Some? ==> i < e.value <= |s|
  {
    if OccursAt(s, "under", i) then Some(i + 5)
    else if OccursAt(s, "within", i) then Some(i + 6)
    else if OccursAt(s, "max", i) then Some(i + 3)
    else if OccursAt(s, "budget", i) then Some(i + 6)
    else None
  }

  /** The budget pattern `(?:under|within|max|budget)\s*\$?\s*(\d+)` tried at index `i`. */
  function BudgetAt(s: string, i: nat): Option<nat>
  {
    match KeywordEnd(s, i)
    case None => None
    case Some(e) =>
      var p := SkipSpaces(s, e);
      var q := if p < |s| && s[p] == '$' then p + 1 else p;
      NumberAt(s, SkipSpaces(s, q))
  }

  /** The duration pattern `(\d+)\s*(?:day|days)` tried at index `i`. */
  function DaysAt(s: string, i: nat): Option<nat>
  {
    if i < |s| && IsDigit(s[i]) && OccursAt(s, "day", SkipSpaces(s, i + DigitRun(s, i))) then NumberAt(s, i)
    else None
  }

  /** Each of the four budget keywords ends where it was found; the earlier alternatives
      fail on its first letter. */
  lemma KeywordEndAt(s: string, i: nat, keyword: string)
    requires keyword == "under" || keyword == "within" || keyword == "max" || keyword == "budget"
    requires OccursAt(s, keyword, i)
    ensures KeywordEnd(s, i) == Some(i + |keyword|)
  {
    assert s[i] == s[i..i + |keyword|][0] == keyword[0];
  }

  /** The budget pattern at `i`: a keyword, one space, a dollar sign and a number. */
  lemma BudgetAtSpelled(s: string, i: nat, e: nat, n: nat)
    requires KeywordEnd(s, i) == Some(e)
    requires e + 2 < |s| && s[e] == ' ' && s[e + 1] == '$'
    requires IsDigit(s[e + 2]) && NumberAt(s, e + 2) == Some(n)
    ensures BudgetAt(s, i) == Some(n)
  {
    var p := SkipSpaces(s, e);
    assert p == e + 1 by {
      assert SkipSpaces(s, e + 1) == e + 1;
    }
    assert SkipSpaces(s, p + 1) == e + 2;
  }

  /** The budget pattern reads "<keyword> $<n>" back as `n`, for each of its four keywords. */
  lemma BudgetAtReads(keyword: string, n: nat, post: string)
    requires keyword == "under" || keyword == "within" || keyword == "max" || keyword == "budget"
    requires post == [] || !IsDigit(post[0])
    ensures BudgetAt(keyword + " $" + Decimal(n) + post, 0) == Some(n)
  {
    var head := keyword + " $";
    var s := head + Decimal(n) + post;
    var e := |keyword|;
    assert s[..e] == keyword;
    KeywordEndAt(s, 0, keyword);
    assert s[e + 2] == Decimal(n)[0];
    NumberAtDecimal(head, n, post);
    BudgetAtSpelled(s, 0, e, n);
  }

  /** The duration pattern at the start: a run of digits, one space and "day". */
  lemma DaysAtSpelled(s: string, e: nat, n: nat)
    requires 0 < e && e + 4 <= |s| && IsDigit(s[0]) && DigitRun(s, 0) == e && NumberAt(s, 0) == Some(n)
    requires s[e] == ' ' && s[e + 1] == 'd' && s[e + 2] == 'a' && s[e + 3] == 'y'
    ensures DaysAt(s, 0) == Some(n)
  {
    var q := SkipSpaces(s, e);
    assert q == e + 1 by {
      assert SkipSpaces(s, e + 1) == e + 1;
    }
    assert s[q..q + 3] == "day";
  }

  /** The duration pattern reads "<n> day" back as `n`. */
  lemma DaysAtReads(n: nat, post: string)
    ensures DaysAt(Decimal(n) + (" day" + post), 0) == Some(n)
  {
    var ds := Decimal(n);
    var t := " day" + post;
    var s := ds + t;
    assert s[..|ds|] == ds;
    assert s[|ds|] == t[0] == ' ' && s[|ds| + 1] == t[1] == 'd';
    assert s[|ds| + 2] == t[2] == 'a' && s[|ds| + 3] == t[3] == 'y';
    DecimalAt(s, 0, n);
    DaysAtSpelled(s, |ds|, n);
  }

  /** The follow-up's day pattern reads "day <n>" back as `n`. */
  lemma DayNumberAtReads(n: nat, post: string)
    requires post == [] || !IsDigit(post[0])
    ensures DayNumberAt("day " + Decimal(n) + post, 0) == Some(n)
  {
    var s := "day " + Decimal(n) + post;
    assert s[..3] == "day";
    assert s[3] == ' ' && s[4] == Decimal(n)[0];
    assert SkipSpaces(s, 3) == 4;
    NumberAtDecimal("day ", n, post);
  }

  /** The leftmost matching start index gives `re.search`'s capture. */
  lemma SearchLeftmost(pattern: Pattern, s: string, i: nat)
    requires i <= |s| && FirstAt(pattern, s, 0, i)
    ensures Search(pattern, s) == MatchAt(pattern, s, i)
  {
    var r := Search(pattern, s);
    var j :| 0 <= j <= |s| && FirstAt(pattern, s, 0, j) && r == MatchAt(pattern, s, j);
    assert j == i;
  }

  /** A match at the very start is the leftmost one, so `re.search` returns its capture. */
  lemma SearchAtStart(pattern: Pattern, s: string)
    requires MatchAt(pattern, s, 0).Some?
    ensures Search(pattern, s) == MatchAt(pattern, s, 0)
  {
    SearchLeftmost(pattern, s, 0);
  }

  /** A message that opens with "<keyword> $<n>" has budget `n`. */
  lemma SearchReadsBudget(keyword: string, n: nat, post: string)
    requires keyword == "under" || keyword == "within" || keyword == "max" || keyword == "budget"
    requires post == [] || !IsDigit(post[0])
    ensures Search(BudgetPattern, keyword + " $" + Decimal(n) + post) == Some(n)
  {
    BudgetAtReads(keyword, n, post);
    SearchAtStart(BudgetPattern, keyword + " $" + Decimal(n) + post);
  }

  /** A message that opens with "<n> day" lasts `n` days. */
  lemma SearchReadsDays(n: nat, post: string)
    ensures Search(DaysPattern, Decimal(n) + (" day" + post)) == Some(n)
  {
    DaysAtReads(n, post);
    SearchAtStart(DaysPattern, Decimal(n) + (" day" + post));
  }

  /** A message that opens with "day <n>" names day `n`. */
  lemma SearchReadsDayNumber(n: nat, post: string)
    requires post == [] || !IsDigit(post[0])
    ensures Search(DayNumberPattern, "day " + Decimal(n) + post) == Some(n)
  {
    DayNumberAtReads(n, post);
    SearchAtStart(DayNumberPattern, "day " + Decimal(n) + post);
  }

  /** `re.search(r"(\d+)", msg)` captures the first number in the message: after a digit-free
      prefix, the numeral `n` is read back whole. */
  lemma SearchReadsFirstNumber(pre: string, n: nat, post: string)
    requires forall k :: 0 <= k < |pre| ==> !IsDigit(pre[k])
    requires post == [] || !IsDigit(post[0])
    ensures Search(NumberPattern, pre + Decimal(n) + post) == Some(n)
  {
    var s := pre + Decimal(n) + post;
    NumberAtDecimal(pre, n, post);
    forall k | 0 <= k < |pre|
      ensures MatchAt(NumberPattern, s, k).None?
    {
      assert s[k] == pre[k];
    }
    SearchLeftmost(NumberPattern, s, |pre|);
  }

  /** A word boundary `\b` at position `p`: exactly one side of it is a word character. */
  predicate IsBoundary(s: string, p: nat)
  {
    (0 < p <= |s| && IsWordChar(s[p - 1])) != (p < |s| && IsWordChar(s[p]))
  }

  /** `\b<w>\b` matches at index `i`. */
  predicate WordAt(s: string, w: string, i: nat)
  {
    OccursAt(s, w, i) && IsBoundary(s, i) && IsBoundary(s, i + |w|)
  }

  /** `re.search(rf"\b{w}\b", s)` succeeds: some index from `i` on holds a whole-word `w`. */
  predicate ContainsWordFrom(s: string, w: string, i: nat)
    decreases |s| + 1 - i
  {
    i <= |s| && (WordAt(s, w, i) || ContainsWordFrom(s, w, i + 1))
  }

  predicate ContainsWord(s: string, w: string)
  {
    ContainsWordFrom(s, w, 0)
  }

  lemma {:induction false} ContainsWordFromMeans(s: string, w: string, i: nat)
    ensures ContainsWordFrom(s, w, i) <==> exists j :: i <= j <= |s| && WordAt(s, w, j)
    decreases |s| + 1 - i
  {
    if i <= |s| {
      ContainsWordFromMeans(s, w, i + 1);
    }
  }

  /** The whole-word test succeeds exactly when some index holds `w` between two word boundaries. */
  lemma ContainsWordMeans(s: string, w: string)
    ensures ContainsWord(s, w) <==> exists j :: 0 <= j <= |s| && WordAt(s, w, j)
  {
    ContainsWordFromMeans(s, w, 0);
  }

  function FallbackFrom(cities: seq<City>, text: string, i: nat): (r: Option<string>)
    requires i <= |cities|
    ensures r.None? ==> forall k :: i <= k < |cities| ==> !ContainsWord(text, Lower(cities[k].name))
    ensures r.Some? ==> exists k :: i <= k < |cities| && r.value == cities[k].name
                         && ContainsWord(text, Lower(cities[k].name))
                         && forall j :: i <= j < k ==> !ContainsWord(text, Lower(cities[j].name))
    decreases |cities| - i
  {
    if i == |cities| then None
    else if ContainsWord(text, Lower(cities[i].name)) then Some(cities[i].name)
    else FallbackFrom(cities, text, i + 1)
  }

  /** The dataset scan for a destination: the name of the first city, in dataset order,
      whose lower-cased name occurs in `text` as a whole word. */
  function FallbackCity(cities: seq<City>, text: string): (r: Option<string>)
    ensures r.None? ==> forall k :: 0 <= k < |cities| ==> !ContainsWord(text, Lower(cities[k].name))
    ensures r.Some? ==> exists k :: 0 <= k < |cities| && r.value == cities[k].name
                         && ContainsWord(text, Lower(cities[k].name))
                         && forall j :: 0 <= j < k ==> !ContainsWord(text, Lower(cities[j].name))
  {
    FallbackFrom(cities, text, 0)
  }

  /** The day-number pattern `day\s*(\d+)` of the follow-up handler tried at index `i`. */
  function DayNumberAt(s: string, i: nat): Option<nat>
  {
    if OccursAt(s, "day", i) then NumberAt(s, SkipSpaces(s, i + 3)) else None
  }

  /** The regular expressions the assistant searches messages with; each captures one number. */
  datatype Pattern =
    | BudgetPattern     // (?:under|within|max|budget)\s*\$?\s*(\d+)
    | DaysPattern       // (\d+)\s*(?:day|days)
    | NumberPattern     // (\d+)
    | DayNumberPattern  // day\s*(\d+)

  /** What `pattern` captures when the match attempt starts at index `i`, if it succeeds. */
  function MatchAt(pattern: Pattern, s: string, i: nat): Option<nat>
  {
    match pattern
    case BudgetPattern => BudgetAt(s, i)
    case DaysPattern => DaysAt(s, i)
    case NumberPattern => NumberAt(s, i)
    case DayNumberPattern => DayNumberAt(s, i)
  }

  /** `i` is the leftmost start index, from `from` on, where `pattern` matches `s`. */
  predicate FirstAt(pattern: Pattern, s: string, from: nat, i: nat)
  {
    MatchAt(pattern, s, i).Some? && forall k :: from <= k < i ==> MatchAt(pattern, s, k).None?
  }

  /** The first index, from `from` on, whose entry is present. */
  function FirstSomeFrom(t: seq<Option<nat>>, from: nat): (i: Option<nat>)
    requires from <= |t|
    ensures i.None? <==> forall j :: from <= j < |t| ==> t[j].None?
    ensures i.Some? ==> from <= i.value < |t| && t[i.value].Some?
                        && forall j :: from <= j < i.value ==> t[j].None?
    decreases |t| - from
  {
    if from == |t| then None
    else if t[from].Some? then Some(from)
    else FirstSomeFrom(t, from + 1)
  }

  /** `re.search(pattern, s)`: start indexes are tried left to right and the first
      successful attempt gives the captured number. */
  function Search(pattern: Pattern, s: string): (r: Option<nat>)
    ensures r.None? <==> forall i :: 0 <= i <= |s| ==> MatchAt(pattern, s, i).None?
    ensures r.Some? ==> exists i :: 0 <= i <= |s| && FirstAt(pattern, s, 0, i) && r == MatchAt(pattern, s, i)
  {
    var attempts := seq(|s| + 1, i requires 0 <= i <= |s| => MatchAt(pattern, s, i));
    assert forall i :: 0 <= i <= |s| ==> attempts[i] == MatchAt(pattern, s, i);
    var i := FirstSomeFrom(attempts, 0);
    if i.None? then None
    else
      assert FirstAt(pattern, s, 0, i.value);
      attempts[i.value]
  }

  /** `parse_user_request(user_text)`. The route pattern `from (X) to (Y)` is not modelled as a
      regex: `route` holds its two raw groups when it matched the lower-cased text. */
  function ParseUserRequest(userText: string, route: Option<(string, string)>, cities: seq<City>): (r: Request)
    // source and, when the route matched, destination come only from the route groups
    ensures r.source == if route.Some? then Some(Title(Strip(route.value.0))) else None
    ensures route.Some? ==> r.destination == Some(Title(Strip(route.value.1)))
    // without a route match the destination is the first dataset city named as a whole word
    ensures route.None? ==> r.destination == FallbackCity(cities, Lower(userText))
    // no budget unless the keyword-and-digits pattern matches; otherwise its leftmost match
    ensures r.budget == Search(BudgetPattern, Lower(userText))
    // three days unless the digits-and-"day" pattern matches; otherwise its leftmost match
    ensures Search(DaysPattern, Lower(userText)).None? ==> r.days == DefaultDays
    ensures Search(DaysPattern, Lower(userText)).Some? ==> r.days == Search(DaysPattern, Lower(userText)).value
  {
    var text := Lower(userText);
    var source := if route.Some? then Some(Title(Strip(route.value.0))) else None;
    var destination := if route.Some? then Some(Title(Strip(route.value.1))) else None;
    var days := Search(DaysPattern, text);
    var destination' := if destination.None? then FallbackCity(cities, text) else destination;
    Request(source, destination', if days.Some? then days.value else DefaultDays, Search(BudgetPattern, text))
  }

  /** The routing test `city and budget and source`: plan only when all three are truthy. */
  predicate ShouldPlan(req: Request)
  {
    Truthy(req.destination) && req.budget.Some? && req.budget.value != 0 && Truthy(req.source)
  }

  /** What a message must contain to be planned: the route pattern matched with two groups
      that are not blank, and a leftmost budget capture that is not 0. A destination found
      only by the dataset scan is never planned, because the source then stays None, and a
      budget of 0 is falsy, so such a message goes to the follow-up handler. */
  lemma PlannedIffRouteAndBudget(userText: string, route: Option<(string, string)>, cities: seq<City>)
    ensures var budget := Search(BudgetPattern, Lower(userText));
            ShouldPlan(ParseUserRequest(userText, route, cities))
            <==> route.Some? && Strip(route.value.0) != "" && Strip(route.value.1) != ""
                 && budget.Some? && budget.value != 0
  {
    if route.Some? {
      assert |Title(Strip(route.value.0))| == |Strip(route.value.0)|;
      assert |Title(Strip(route.value.1))| == |Strip(route.value.1)|;
    }
  }
}
