/**
 * The search bar: guest counters, the guests label, the search guard, the
 * destination suggestions, the calendar grid and the focus flow between the
 * where / check-in / check-out / guests fields.
 *
 * Dates are day numbers (a calendar day's local midnight, counted in days);
 * the current time is a parameter measured on the same scale.
 */
module SearchBar {
  import opened Options
  import opened Strings
  import opened Sequences

  type DayNumber = int

  datatype GuestKind = Adults | Children | Infants | Pets

  /** The values `activeField` takes: 'where', 'checkin', 'checkout', 'guests'. */
  datatype Field = Where | CheckInField | CheckOutField | GuestsField

  datatype DateKind = CheckIn | CheckOut

  datatype BarParams = BarParams(
    destination: string,
    checkIn: Option<DayNumber>,
    checkOut: Option<DayNumber>,
    adults: int,
    children: int,
    infants: int,
    pets: int)

  datatype BarState = BarState(
    params: BarParams,
    activeField: Option<Field>,
    showSuggestions: bool,
    showDatePicker: bool,
    showGuestPicker: bool)

  const InitialParams: BarParams := BarParams("", None, None, 0, 0, 0, 0)

  const Initial: BarState := BarState(InitialParams, None, false, false, false)

  function Count(p: BarParams, k: GuestKind): int {
    match k
    case Adults => p.adults
    case Children => p.children
    case Infants => p.infants
    case Pets => p.pets
  }

  predicate CountsNonNegative(p: BarParams) {
    p.adults >= 0 && p.children >= 0 && p.infants >= 0 && p.pets >= 0
  }

  // ---------------------------------------------------------------------
  // Guests

  /** `updateGuestCount(type, delta)`: the counter moves by `delta`, clamped
      at 0; nothing else changes. */
  function UpdateGuestCount(p: BarParams, k: GuestKind, delta: int): (r: BarParams)
    ensures Count(r, k) >= 0
    ensures Count(p, k) + delta >= 0 ==> Count(r, k) == Count(p, k) + delta
    ensures Count(p, k) + delta < 0 ==> Count(r, k) == 0
    ensures forall j :: j != k ==> Count(r, j) == Count(p, j)
    ensures r.destination == p.destination && r.checkIn == p.checkIn && r.checkOut == p.checkOut
  {
    var v := if Count(p, k) + delta > 0 then Count(p, k) + delta else 0;
    match k
    case Adults => p.(adults := v)
    case Children => p.(children := v)
    case Infants => p.(infants := v)
    case Pets => p.(pets := v)
  }

  /** Counters that start at 0 stay non-negative under any sequence of
      updates. */
  lemma UpdateKeepsCountsNonNegative(p: BarParams, k: GuestKind, delta: int)
    requires CountsNonNegative(p)
    ensures CountsNonNegative(UpdateGuestCount(p, k, delta))
  {
    var r := UpdateGuestCount(p, k, delta);
    assert Count(r, Adults) >= 0 && Count(r, Children) >= 0;
    assert Count(r, Infants) >= 0 && Count(r, Pets) >= 0;
  }

  /** The minus button at 0 leaves the parameters as they were. */
  lemma DecrementAtZero(p: BarParams, k: GuestKind)
    requires Count(p, k) == 0
    ensures UpdateGuestCount(p, k, -1) == p
  {
    match k
    case Adults =>
    case Children =>
    case Infants =>
    case Pets =>
  }

  /** Plus then minus restores the parameters. */
  lemma IncrementThenDecrement(p: BarParams, k: GuestKind)
    requires Count(p, k) >= 0
    ensures UpdateGuestCount(UpdateGuestCount(p, k, 1), k, -1) == p
  {
    match k
    case Adults =>
    case Children =>
    case Infants =>
    case Pets =>
  }

  /** `getTotalGuests`: adults and children only. */
  function TotalGuests(p: BarParams): int {
    p.adults + p.children
  }

  /** The label of the guests field. */
  function GuestsLabel(p: BarParams): (r: string)
    ensures r == "Add guests" <==> TotalGuests(p) == 0
    ensures r == "1 guest" <==> TotalGuests(p) == 1
  {
    var total := TotalGuests(p);
    if total == 0 then "Add guests"
    else if total == 1 then "1 guest"
    else
      ManyLabel(total);
      IntToString(total) + " guests"
  }

  /** With non-negative counters the label determines the number of guests:
      two states with the same label have the same adults + children. */
  lemma GuestsLabelDeterminesTotal(p: BarParams, q: BarParams)
    requires CountsNonNegative(p) && CountsNonNegative(q)
    requires GuestsLabel(p) == GuestsLabel(q)
    ensures TotalGuests(p) == TotalGuests(q)
  {
    var m, n := TotalGuests(p), TotalGuests(q);
    if m >= 2 && n >= 2 {
      var a, b := NatToString(m), NatToString(n);
      assert a + " guests" == b + " guests";
      assert a == (a + " guests")[..|a|] == (b + " guests")[..|b|] == b;
      NatToStringInjective(m, n);
    }
  }

  /** A count label for any other total differs from the two fixed labels:
      it starts with a digit or '-' and is longer than "1 guest". */
  lemma ManyLabel(t: int)
    requires t != 0 && t != 1
    ensures IntToString(t) + " guests" != "Add guests"
    ensures IntToString(t) + " guests" != "1 guest"
  {
    var a := IntToString(t);
    assert a[0] == '-' || IsDigit(a[0]);
    assert (a + " guests")[0] == a[0];
  }

  // ---------------------------------------------------------------------
  // Search

  /** `handleSearch` returns early when there is no destination and no
      adults or children; infants and pets alone do not count. */
  predicate ShouldSearch(p: BarParams) {
    !(p.destination == "" && p.adults == 0 && p.children == 0)
  }

  /** `handleSearch`: the new state and the parameters passed to `onSearch`.
      The prop is optional (`hasOnSearch`): without it the dropdowns still
      close but nothing is submitted. `None` also when the guard returns
      early. */
  function HandleSearch(s: BarState, hasOnSearch: bool): (r: (BarState, Option<BarParams>))
    ensures !ShouldSearch(s.params) ==> r.0 == s && r.1.None?
    ensures ShouldSearch(s.params) ==> r.0.params == s.params && AllClosed(r.0)
    ensures r.1.Some? <==> ShouldSearch(s.params) && hasOnSearch
    ensures r.1.Some? ==> r.1.value == s.params
  {
    if !ShouldSearch(s.params) then (s, None)
    else (CloseAll(s), if hasOnSearch then Some(s.params) else None)
  }

  /** Adding only infants and pets to an empty bar never searches. */
  lemma InfantsAndPetsDoNotSearch(i: int, pets: int, hasOnSearch: bool)
    ensures HandleSearch(Initial.(params := InitialParams.(infants := i, pets := pets)), hasOnSearch).1.None?
  {
  }

  // ---------------------------------------------------------------------
  // Dropdowns and focus

  predicate AllClosed(s: BarState) {
    s.activeField.None? && !s.showSuggestions && !s.showDatePicker && !s.showGuestPicker
  }

  function CloseAll(s: BarState): (r: BarState)
    ensures AllClosed(r) && r.params == s.params
  {
    s.(activeField := None, showSuggestions := false, showDatePicker := false, showGuestPicker := false)
  }

  /** The mousedown listener: a press outside the bar closes everything. */
  function ClickOutside(s: BarState, inside: bool): (r: BarState)
    ensures inside ==> r == s
    ensures !inside ==> AllClosed(r) && r.params == s.params
  {
    if inside then s else CloseAll(s)
  }

  /** Clicking one of the four fields focuses it and opens its dropdown
      only: suggestions for where, the date picker for both dates, the
      guest picker for guests. */
  function ClickField(s: BarState, f: Field): (r: BarState)
    ensures r.activeField == Some(f) && r.params == s.params
    ensures r.showSuggestions <==> f == Where
    ensures r.showDatePicker <==> f == CheckInField || f == CheckOutField
    ensures r.showGuestPicker <==> f == GuestsField
  {
    s.(activeField := Some(f),
       showSuggestions := f == Where,
       showDatePicker := f == CheckInField || f == CheckOutField,
       showGuestPicker := f == GuestsField)
  }

  /** At most one dropdown is open. */
  predicate AtMostOneOpen(s: BarState) {
    (s.showSuggestions ==> !s.showDatePicker && !s.showGuestPicker)
    && (s.showDatePicker ==> !s.showGuestPicker)
  }

  /** `handleDestinationChange`: the text is stored and suggestions show
      exactly when it is non-empty. */
  function HandleDestinationChange(s: BarState, value: string): (r: BarState)
    ensures r.params == s.params.(destination := value)
    ensures r.showSuggestions <==> |value| > 0
    ensures r.activeField == s.activeField && r.showDatePicker == s.showDatePicker
    ensures r.showGuestPicker == s.showGuestPicker
  {
    s.(params := s.params.(destination := value), showSuggestions := |value| > 0)
  }

  /** `selectDestination`: the name is stored, suggestions close and focus
      moves to check-in with the date picker open. */
  function SelectDestination(s: BarState, name: string): (r: BarState)
    ensures r.params == s.params.(destination := name)
    ensures !r.showSuggestions && r.showDatePicker && r.activeField == Some(CheckInField)
    ensures r.showGuestPicker == s.showGuestPicker
  {
    s.(params := s.params.(destination := name), showSuggestions := false,
       activeField := Some(CheckInField), showDatePicker := true)
  }

  /** `handleDateSelect`: check-in moves focus to check-out and keeps the
      picker open; check-out closes the picker and opens the guest picker. */
  function HandleDateSelect(s: BarState, d: DayNumber, kind: DateKind): (r: BarState)
    ensures kind == CheckIn ==>
      (r.params == s.params.(checkIn := Some(d)) && r.activeField == Some(CheckOutField)
       && r.showDatePicker == s.showDatePicker && r.showGuestPicker == s.showGuestPicker)
    ensures kind == CheckOut ==>
      (r.params == s.params.(checkOut := Some(d)) && r.activeField == Some(GuestsField)
       && !r.showDatePicker && r.showGuestPicker)
    ensures r.showSuggestions == s.showSuggestions
  {
    match kind
    case CheckIn => s.(params := s.params.(checkIn := Some(d)), activeField := Some(CheckOutField))
    case CheckOut =>
      s.(params := s.params.(checkOut := Some(d)), showDatePicker := false,
         activeField := Some(GuestsField), showGuestPicker := true)
  }

  /** Which date a calendar click sets: check-in only while that field is
      focused, check-out otherwise. */
  function DateClickTarget(active: Option<Field>): (r: DateKind)
    ensures r == CheckIn <==> active == Some(CheckInField)
  {
    if active == Some(CheckInField) then CheckIn else CheckOut
  }

  /** A calendar cell's button: an empty cell, or a day whose midnight is
      earlier than `now`, is disabled and ignores clicks. */
  function ClickDay(s: BarState, cell: Option<DayNumber>, now: real): (r: BarState)
    ensures cell.None? || (cell.value as real) < now ==> r == s
    ensures cell.Some? && !((cell.value as real) < now) ==>
      r == HandleDateSelect(s, cell.value, DateClickTarget(s.activeField))
  {
    if cell.None? || (cell.value as real) < now then s
    else HandleDateSelect(s, cell.value, DateClickTarget(s.activeField))
  }

  /** Today's cell is disabled at any moment after midnight, so the
      earliest check-in the calendar accepts is tomorrow. */
  lemma TodayNotSelectable(s: BarState, today: DayNumber, now: real)
    requires today as real < now
    ensures ClickDay(s, Some(today), now) == s
  {
  }

  /** The focus flow from choosing a destination: the next two calendar
      clicks set check-in and then check-out, after which the date picker is
      closed and the guest picker open with focus on guests. */
  lemma DestinationThenTwoDays(s: BarState, name: string, d1: DayNumber, d2: DayNumber, now: real)
    requires now <= d1 as real && now <= d2 as real
    ensures var r := ClickDay(ClickDay(SelectDestination(s, name), Some(d1), now), Some(d2), now);
      r.params == s.params.(destination := name, checkIn := Some(d1), checkOut := Some(d2))
      && r.activeField == Some(GuestsField) && !r.showDatePicker && r.showGuestPicker
      && !r.showSuggestions && AtMostOneOpen(r)
  {
    var a := SelectDestination(s, name);
    var b := ClickDay(a, Some(d1), now);
    assert b.activeField == Some(CheckOutField);
  }

  /** `handleGuestSelectionComplete`: the guest picker closes and nothing is
      focused. */
  function GuestSelectionComplete(s: BarState): (r: BarState)
    ensures !r.showGuestPicker && r.activeField.None?
    ensures r.params == s.params && r.showSuggestions == s.showSuggestions
    ensures r.showDatePicker == s.showDatePicker
  {
    s.(showGuestPicker := false, activeField := None)
  }

  // ---------------------------------------------------------------------
  // Suggestions

  const SuggestedDestinations: seq<string> := [
    "Toronto, Canada", "Kolkata, India", "Edmonton, Canada", "Bangkok, Thailand",
    "Istanbul, Türkiye", "Saskatoon, Canada", "Chattogram, Bangladesh"]

  predicate Suggests(name: string, query: string) {
    query == "" || ContainsIgnoringCase(name, query)
  }

  /** The names the dropdown lists for `query`, in their original order. */
  function FilterNames(names: seq<string>, query: string): (r: seq<string>)
    ensures IsSubsequence(r, names)
    ensures forall k :: 0 <= k < |r| ==> r[k] in names && Suggests(r[k], query)
    ensures forall k :: 0 <= k < |names| && Suggests(names[k], query) ==> names[k] in r
  {
    if |names| == 0 then []
    else
      var rest := FilterNames(names[1..], query);
      assert forall k :: 1 <= k < |names| ==> names[k] == names[1..][k - 1];
      if Suggests(names[0], query) then [names[0]] + rest else rest
  }

  /** Repeated names are kept as often as they occur: every matching name
      appears in the dropdown exactly as many times as in the list, and no
      other name appears. */
  lemma {:induction false} FilterNamesCounts(names: seq<string>, query: string, x: string)
    ensures multiset(FilterNames(names, query))[x] == if Suggests(x, query) then multiset(names)[x] else 0
  {
    if |names| > 0 {
      FilterNamesCounts(names[1..], query, x);
      assert names == [names[0]] + names[1..];
      assert multiset(names) == multiset([names[0]]) + multiset(names[1..]);
      var rest := FilterNames(names[1..], query);
      assert multiset([names[0]] + rest) == multiset([names[0]]) + multiset(rest);
    }
  }

  function Suggestions(query: string): (r: seq<string>)
    ensures IsSubsequence(r, SuggestedDestinations)
    ensures forall k :: 0 <= k < |r| ==> r[k] in SuggestedDestinations && Suggests(r[k], query)
    ensures forall k :: 0 <= k < |SuggestedDestinations| && Suggests(SuggestedDestinations[k], query)
              ==> SuggestedDestinations[k] in r
  {
    FilterNames(SuggestedDestinations, query)
  }

  /** Every name passes the empty query. */
  lemma {:induction false} FilterEverything(names: seq<string>)
    ensures FilterNames(names, "") == names
  {
    if |names| > 0 {
      FilterEverything(names[1..]);
    }
  }

  /** An empty query lists all seven destinations in order. */
  lemma EmptyQuerySuggestsAll()
    ensures Suggestions("") == SuggestedDestinations
  {
    FilterEverything(SuggestedDestinations);
  }

  // ---------------------------------------------------------------------
  // Calendar

  /** A month as JavaScript's `Date` holds it: `month` is 0 for January. */
  datatype Month = Month(year: int, month: int)

  predicate ValidMonth(m: Month) {
    0 <= m.month < 12
  }

  predicate LeapYear(y: int) {
    (y % 4 == 0 && y % 100 != 0) || y % 400 == 0
  }

  /** `new Date(y, m + 1, 0).getDate()`: the last day of month `m` in the
      Gregorian calendar. */
  function DaysInMonth(m: Month): (r: nat)
    requires ValidMonth(m)
    ensures 28 <= r <= 31
    ensures m.month == 1 ==> (r == 29 <==> LeapYear(m.year))
  {
    if m.month == 1 then (if LeapYear(m.year) then 29 else 28)
    else if m.month in {3, 5, 8, 10} then 30
    else 31
  }

  /** The months of a year add up to 365 or 366 days. */
  lemma YearLength(y: int)
    ensures DaysInMonth(Month(y, 0)) + DaysInMonth(Month(y, 1)) + DaysInMonth(Month(y, 2))
      + DaysInMonth(Month(y, 3)) + DaysInMonth(Month(y, 4)) + DaysInMonth(Month(y, 5))
      + DaysInMonth(Month(y, 6)) + DaysInMonth(Month(y, 7)) + DaysInMonth(Month(y, 8))
      + DaysInMonth(Month(y, 9)) + DaysInMonth(Month(y, 10)) + DaysInMonth(Month(y, 11))
        == if LeapYear(y) then 366 else 365
  {
  }

  /** The month arrows: `new Date(y, m + 1)` and `new Date(y, m - 1)`. */
  function NextMonth(m: Month): (r: Month)
    requires ValidMonth(m)
    ensures ValidMonth(r)
    ensures r.year * 12 + r.month == m.year * 12 + m.month + 1
  {
    if m.month == 11 then Month(m.year + 1, 0) else Month(m.year, m.month + 1)
  }

  function PrevMonth(m: Month): (r: Month)
    requires ValidMonth(m)
    ensures ValidMonth(r)
    ensures r.year * 12 + r.month == m.year * 12 + m.month - 1
  {
    if m.month == 0 then Month(m.year - 1, 11) else Month(m.year, m.month - 1)
  }

  lemma NextThenPrev(m: Month)
    requires ValidMonth(m)
    ensures PrevMonth(NextMonth(m)) == m && NextMonth(PrevMonth(m)) == m
  {
  }

  /** `generateCalendar`: `startDay` blank cells (the weekday of the 1st,
      as `getDay` gives it), then the days 1..`daysInMonth` in order. */
  method GenerateCalendar(startDay: nat, daysInMonth: nat) returns (days: seq<Option<int>>)
    ensures |days| == startDay + daysInMonth
    ensures forall i :: 0 <= i < startDay ==> days[i] == None
    ensures forall i :: startDay <= i < |days| ==> days[i] == Some(i - startDay + 1)
  {
    days := [];
    var i := 0;
    while i < startDay
      invariant 0 <= i <= startDay
      invariant |days| == i
      invariant forall k :: 0 <= k < i ==> days[k] == None
    {
      days := days + [None];
      i := i + 1;
    }
    var blanks := |days|;
    var day := 1;
    while day <= daysInMonth
      invariant 1 <= day <= daysInMonth + 1
      invariant |days| == blanks + day - 1
      invariant forall k :: 0 <= k < blanks ==> days[k] == None
      invariant forall k :: blanks <= k < |days| ==> days[k] == Some(k - blanks + 1)
    {
      days := days + [Some(day)];
      day := day + 1;
    }
  }
}
