/**
 * The client search hook: the query string it writes for the search
 * endpoint, which together with the endpoint's decoding forms an
 * encode/decode pair, and the hook's result/error state.
 */
module ClientSearch {
  import opened Options
  import opened Strings
  import opened Numbers
  import opened Params
  import opened Ranking
  import Search

  /** What the search bar and filters hand to the hook. Dates are carried as
      the ISO text `toISOString` produces; prices are whole numbers. */
  datatype ClientParams = ClientParams(
    destination: string,
    checkIn: Option<string>,
    checkOut: Option<string>,
    adults: int,
    children: int,
    infants: int,
    pets: int,
    minPrice: Option<int>,
    maxPrice: Option<int>,
    bedrooms: Option<int>,
    bathrooms: Option<int>,
    propertyType: Option<string>,
    amenities: Option<seq<string>>,
    instantBook: Option<bool>)

  predicate Positive(v: Option<int>) {
    v.Some? && v.value > 0
  }

  predicate NonEmptyList(v: Option<seq<string>>) {
    v.Some? && |v.value| > 0
  }

  /** The keys `search` may write. */
  const QueryKeys: set<string> := {"destination", "checkIn", "checkOut", "adults", "children",
    "infants", "pets", "minPrice", "maxPrice", "bedrooms", "bathrooms", "propertyType",
    "amenities", "instantBook"}

  /** The value `search` writes under `key`, or `None` when its guard skips it. */
  function Entry(c: ClientParams, key: string): Option<string> {
    if key == "destination" then (if c.destination != "" then Some(c.destination) else None)
    else if key == "checkIn" then c.checkIn
    else if key == "checkOut" then c.checkOut
    else if key == "adults" then (if c.adults > 0 then Some(IntToString(c.adults)) else None)
    else if key == "children" then (if c.children > 0 then Some(IntToString(c.children)) else None)
    else if key == "infants" then (if c.infants > 0 then Some(IntToString(c.infants)) else None)
    else if key == "pets" then (if c.pets > 0 then Some(IntToString(c.pets)) else None)
    else if key == "minPrice" then (if c.minPrice.Some? then Some(IntToString(c.minPrice.value)) else None)
    else if key == "maxPrice" then (if c.maxPrice.Some? then Some(IntToString(c.maxPrice.value)) else None)
    else if key == "bedrooms" then (if Positive(c.bedrooms) then Some(IntToString(c.bedrooms.value)) else None)
    else if key == "bathrooms" then (if Positive(c.bathrooms) then Some(IntToString(c.bathrooms.value)) else None)
    else if key == "propertyType" then
      (if c.propertyType.Some? && c.propertyType.value != "" then c.propertyType else None)
    else if key == "amenities" then
      (if NonEmptyList(c.amenities) then Some(Join(c.amenities.value, ',')) else None)
    else if key == "instantBook" then (if c.instantBook == Some(true) then Some("true") else None)
    else None
  }

  /** The query string `search` sends. */
  function Encode(c: ClientParams): (r: Params)
    ensures forall k :: k in r ==> k in QueryKeys
    ensures forall k :: k in QueryKeys ==> Get(r, k) == Entry(c, k)
  {
    map k | k in QueryKeys && Entry(c, k).Some? :: Entry(c, k).value
  }

  /** Amenity names that survive the endpoint's `split(',')`. */
  predicate CommaFree(c: ClientParams) {
    c.amenities.Some? ==> forall k :: 0 <= k < |c.amenities.value| ==> Free(c.amenities.value[k], ',')
  }

  /** A count the endpoint sees: the client's value when it was sent, the
      default 0 otherwise. */
  function CountSeen(n: int): Num {
    N(if n > 0 then n as real else 0.0)
  }

  lemma CountRoundTrip(p: Params, key: string, n: int)
    requires Get(p, key) == if n > 0 then Some(IntToString(n)) else None
    ensures ParseInt(GetOr(p, key, "0")) == CountSeen(n)
  {
    Search.DefaultNumerals();
    if n > 0 {
      ParseIntOfString(n);
      assert IntToString(n) != "";
    }
  }

  lemma OptionalCountRoundTrip(p: Params, key: string, v: Option<int>)
    requires Get(p, key) == if Positive(v) then Some(IntToString(v.value)) else None
    ensures ParseInt(GetOr(p, key, "0")) == CountSeen(v.GetOr(0))
  {
    Search.DefaultNumerals();
    if Positive(v) {
      ParseIntOfString(v.value);
      assert IntToString(v.value) != "";
    }
  }

  lemma PriceRoundTrip(p: Params, key: string, v: Option<int>, fallback: string, d: real)
    requires Get(p, key) == if v.Some? then Some(IntToString(v.value)) else None
    requires ParseFloat(fallback) == N(d)
    ensures ParseFloat(GetOr(p, key, fallback)) == if v.Some? then N(v.value as real) else N(d)
  {
    if v.Some? {
      ParseFloatOfString(v.value);
      assert IntToString(v.value) != "" by {
        if v.value < 0 {
          assert IntToString(v.value)[0] == '-';
        }
      }
    }
  }

  /** What the endpoint decodes from `Encode(c)`. */
  function Seen(c: ClientParams): Search.Criteria {
    Search.Criteria(
      destination := c.destination,
      checkIn := c.checkIn,
      checkOut := c.checkOut,
      adults := CountSeen(c.adults),
      children := CountSeen(c.children),
      infants := CountSeen(c.infants),
      pets := CountSeen(c.pets),
      minPrice := if c.minPrice.Some? then N(c.minPrice.value as real) else N(0.0),
      maxPrice := if c.maxPrice.Some? then N(c.maxPrice.value as real) else N(10000.0),
      bedrooms := CountSeen(c.bedrooms.GetOr(0)),
      bathrooms := CountSeen(c.bathrooms.GetOr(0)),
      propertyType := c.propertyType.GetOr(""),
      amenities := if NonEmptyList(c.amenities) then c.amenities.value else [],
      instantBook := c.instantBook == Some(true))
  }

  lemma GuestsRoundTrip(c: ClientParams)
    ensures var d := Search.Decode(Encode(c));
      d.adults == CountSeen(c.adults) && d.children == CountSeen(c.children)
      && d.infants == CountSeen(c.infants) && d.pets == CountSeen(c.pets)
  {
    var p := Encode(c);
    CountRoundTrip(p, "adults", c.adults);
    CountRoundTrip(p, "children", c.children);
    CountRoundTrip(p, "infants", c.infants);
    CountRoundTrip(p, "pets", c.pets);
  }

  lemma RoomsRoundTrip(c: ClientParams)
    ensures var d := Search.Decode(Encode(c));
      d.bedrooms == CountSeen(c.bedrooms.GetOr(0)) && d.bathrooms == CountSeen(c.bathrooms.GetOr(0))
  {
    var p := Encode(c);
    OptionalCountRoundTrip(p, "bedrooms", c.bedrooms);
    OptionalCountRoundTrip(p, "bathrooms", c.bathrooms);
  }

  lemma PricesRoundTrip(c: ClientParams)
    ensures var d := Search.Decode(Encode(c));
      && d.minPrice == (if c.minPrice.Some? then N(c.minPrice.value as real) else N(0.0))
      && d.maxPrice == (if c.maxPrice.Some? then N(c.maxPrice.value as real) else N(10000.0))
  {
    var p := Encode(c);
    Search.DefaultNumerals();
    PriceRoundTrip(p, "minPrice", c.minPrice, "0", 0.0);
    PriceRoundTrip(p, "maxPrice", c.maxPrice, "10000", 10000.0);
  }

  lemma FiltersRoundTrip(c: ClientParams)
    ensures var d := Search.Decode(Encode(c));
      d.bedrooms == CountSeen(c.bedrooms.GetOr(0)) && d.bathrooms == CountSeen(c.bathrooms.GetOr(0))
      && d.minPrice == (if c.minPrice.Some? then N(c.minPrice.value as real) else N(0.0))
      && d.maxPrice == (if c.maxPrice.Some? then N(c.maxPrice.value as real) else N(10000.0))
  {
    RoomsRoundTrip(c);
    PricesRoundTrip(c);
  }

  lemma TextRoundTrip(c: ClientParams)
    requires CommaFree(c)
    ensures var d := Search.Decode(Encode(c));
      d.destination == c.destination && d.checkIn == c.checkIn && d.checkOut == c.checkOut
      && d.propertyType == c.propertyType.GetOr("")
      && d.amenities == (if NonEmptyList(c.amenities) then c.amenities.value else [])
      && d.instantBook == (c.instantBook == Some(true))
  {
    var p := Encode(c);
    assert Get(p, "amenities") == Entry(c, "amenities");
    if NonEmptyList(c.amenities) {
      SplitJoin(c.amenities.value, ',');
    }
  }

  /** The round trip through the query string: destination, dates, type,
      amenities and prices come back unchanged, counts come back when they
      were positive and as 0 otherwise, and `instantBook` comes back true
      exactly when it was true. */
  lemma EncodeDecode(c: ClientParams)
    requires CommaFree(c)
    ensures Search.Decode(Encode(c)) == Seen(c)
  {
    GuestsRoundTrip(c);
    FiltersRoundTrip(c);
    TextRoundTrip(c);
  }

  // ---------------------------------------------------------------------
  // Hook state

  datatype SearchState = SearchState(results: seq<Scored>, loading: bool, error: Option<string>)

  const Initial: SearchState := SearchState([], false, None)

  /** How the request ended: a non-OK HTTP status, a body with its `success`
      flag, or an exception (with the message when it is an `Error`). */
  datatype Outcome =
    | HttpNotOk
    | Answered(success: bool, data: seq<Scored>)
    | Thrown(message: Option<string>)

  predicate Failed(o: Outcome) {
    !(o.Answered? && o.success)
  }

  /** The message the hook stores for a failed outcome. */
  function FailureMessage(o: Outcome): string
    requires Failed(o)
  {
    match o
    case HttpNotOk => "Search failed"
    case Answered(_, _) => "Search request failed"
    case Thrown(m) => m.GetOr("Search failed")
  }

  /** One call of `search`: loading and a cleared error while the request
      runs, then the results or the failure, and loading off. */
  function RunSearch(s: SearchState, o: Outcome): (r: SearchState)
    ensures !r.loading
    ensures Failed(o) ==> r.results == [] && r.error.Some?
    ensures !Failed(o) ==> r.results == o.data && r.error.None?
  {
    var running := s.(loading := true, error := None);
    if Failed(o) then running.(results := [], error := Some(FailureMessage(o)), loading := false)
    else running.(results := o.data, loading := false)
  }

  /** `clearResults`: no results and no error; loading is untouched. */
  function ClearResults(s: SearchState): (r: SearchState)
    ensures r.results == [] && r.error.None? && r.loading == s.loading
  {
    s.(results := [], error := None)
  }

  /** Clearing after any search, successful or not, returns the hook to its
      initial state. */
  lemma ClearAfterSearch(s: SearchState, o: Outcome)
    ensures ClearResults(RunSearch(s, o)) == Initial
  {
  }
}
