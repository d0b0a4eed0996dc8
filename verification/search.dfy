/**
 * The search endpoint's GET handler: request decoding with its defaults,
 * filter construction, retrieval of at most fifty candidates, relevance
 * scoring and the stable descending sort.
 */
module Search {
  import opened Options
  import opened Strings
  import opened Numbers
  import opened Listings
  import opened Queries
  import opened Params
  import opened Ranking
  import opened Sequences

  const ResultLimit: nat := 50
  const DefaultMinPrice: real := 0.0
  const DefaultMaxPrice: real := 10000.0
  const HighRating: real := 4.5
  const PopularReviews: int := 50
  const PetAmenities: seq<string> := ["Pet-friendly", "Pets allowed"]

  /** The decoded request. Counts and prices keep JavaScript's NaN when the
      parameter is not a numeral. */
  datatype Criteria = Criteria(
    destination: string,
    checkIn: Option<string>,
    checkOut: Option<string>,
    adults: Num,
    children: Num,
    infants: Num,
    pets: Num,
    minPrice: Num,
    maxPrice: Num,
    bedrooms: Num,
    bathrooms: Num,
    propertyType: string,
    amenities: seq<string>,
    instantBook: bool)

  /** A guest or room count as the handler reads it: `parseInt` of the
      parameter, 0 when it is absent or empty, NaN when it is not a numeral. */
  function CountParam(p: Params, key: string): Num {
    if Truthy(Get(p, key)) then ParseInt(p[key]) else N(0.0)
  }

  /** Reads the query string, applying the handler's defaults. */
  function Decode(p: Params): (c: Criteria)
    ensures c.destination == (if Truthy(Get(p, "destination")) then p["destination"] else "")
    ensures c.checkIn == Get(p, "checkIn") && c.checkOut == Get(p, "checkOut")
    ensures c.adults == CountParam(p, "adults") && c.children == CountParam(p, "children")
    ensures c.infants == CountParam(p, "infants") && c.pets == CountParam(p, "pets")
    ensures c.bedrooms == CountParam(p, "bedrooms") && c.bathrooms == CountParam(p, "bathrooms")
    ensures c.minPrice == (if Truthy(Get(p, "minPrice")) then ParseFloat(p["minPrice"]) else N(DefaultMinPrice))
    ensures c.maxPrice == (if Truthy(Get(p, "maxPrice")) then ParseFloat(p["maxPrice"]) else N(DefaultMaxPrice))
    ensures c.propertyType == (if Truthy(Get(p, "propertyType")) then p["propertyType"] else "")
    ensures "amenities" !in p ==> c.amenities == []
    ensures "amenities" in p ==> c.amenities == Split(p["amenities"], ',') && |c.amenities| >= 1
    ensures c.instantBook <==> Get(p, "instantBook") == Some("true")
  {
    DefaultNumerals();
    Criteria(
      destination := GetOr(p, "destination", ""),
      checkIn := Get(p, "checkIn"),
      checkOut := Get(p, "checkOut"),
      adults := ParseInt(GetOr(p, "adults", "0")),
      children := ParseInt(GetOr(p, "children", "0")),
      infants := ParseInt(GetOr(p, "infants", "0")),
      pets := ParseInt(GetOr(p, "pets", "0")),
      minPrice := ParseFloat(GetOr(p, "minPrice", "0")),
      maxPrice := ParseFloat(GetOr(p, "maxPrice", "10000")),
      bedrooms := ParseInt(GetOr(p, "bedrooms", "0")),
      bathrooms := ParseInt(GetOr(p, "bathrooms", "0")),
      propertyType := GetOr(p, "propertyType", ""),
      amenities := if "amenities" in p then Split(p["amenities"], ',') else [],
      instantBook := Get(p, "instantBook") == Some("true"))
  }

  /** The handler's default numerals read as 0 and 10000. */
  lemma DefaultNumerals()
    ensures ParseInt("0") == N(0.0) && ParseFloat("0") == N(0.0)
    ensures ParseFloat("10000") == N(10000.0)
  {
    ParseIntOfString(0);
    ParseFloatOfString(0);
    ParseFloatOfString(10000);
    assert NatToString(1) == "1";
    assert NatToString(10) == "10";
    assert NatToString(100) == "100";
    assert NatToString(1000) == "1000";
    assert NatToString(10000) == "10000";
  }

  /** Adults and children; infants and pets do not count. */
  function TotalGuests(c: Criteria): Num {
    Add(c.adults, c.children)
  }

  function DestinationClauses(d: string): seq<Clause> {
    [Regex(Location, d), Regex(Title, d), Regex(Description, d)]
  }

  const PetClause: Clause := AnyAmenity(PetAmenities)

  /** The `price` clause: emitted only when a bound leaves its default, and
      then carrying exactly the bounds that do. */
  function PriceClause(minPrice: Num, maxPrice: Num): (r: seq<Clause>)
    ensures |r| <= 1
    ensures |r| == 1 <==> Above(minPrice, 0.0) || Below(maxPrice, 10000.0)
    ensures minPrice == N(0.0) && maxPrice == N(10000.0) ==> r == []
    ensures |r| == 1 ==> r[0].Range? && r[0].num == Price
    ensures |r| == 1 ==> (r[0].lo.Some? <==> Above(minPrice, 0.0))
    ensures |r| == 1 ==> (r[0].hi.Some? <==> Below(maxPrice, 10000.0))
    ensures |r| == 1 && r[0].lo.Some? ==> r[0].lo.value == minPrice
    ensures |r| == 1 && r[0].hi.Some? ==> r[0].hi.value == maxPrice
  {
    var lo := if Above(minPrice, DefaultMinPrice) then Some(minPrice) else None;
    var hi := if Below(maxPrice, DefaultMaxPrice) then Some(maxPrice) else None;
    When(lo.Some? || hi.Some?, Range(Price, lo, hi))
  }

  /** The filter handed to the store. The pet clause is pushed into the same
      `$or` group as the destination alternatives. */
  function BuildQuery(c: Criteria): Query {
    var total := TotalGuests(c);
    var all :=
      When(Above(total, 0.0), Range(MaxGuests, Some(total), None))
      + PriceClause(c.minPrice, c.maxPrice)
      + When(Above(c.bedrooms, 0.0), Range(Bedrooms, Some(c.bedrooms), None))
      + When(Above(c.bathrooms, 0.0), Range(Bathrooms, Some(c.bathrooms), None))
      + When(c.propertyType != "", Regex(PropertyType, c.propertyType))
      + When(|c.amenities| > 0, AnyAmenity(c.amenities))
      + When(c.instantBook, Equals(InstantBook, true));
    var any :=
      (if c.destination != "" then DestinationClauses(c.destination) else [])
      + When(Above(c.pets, 0.0), PetClause);
    Query(all, any)
  }

  predicate DestinationHit(l: Listing, d: string) {
    || ContainsIgnoringCase(l.location, d)
    || ContainsIgnoringCase(l.title, d)
    || ContainsIgnoringCase(l.description, d)
  }

  /** The AND-ed part of the search filter, stated field by field. */
  predicate RequiredFields(l: Listing, c: Criteria) {
    var total := TotalGuests(c);
    && (Above(total, 0.0) ==> l.maxGuests as real >= total.v)
    && (Above(c.minPrice, 0.0) ==> l.price >= c.minPrice.v)
    && (Below(c.maxPrice, 10000.0) ==> l.price <= c.maxPrice.v)
    && (Above(c.bedrooms, 0.0) ==> l.bedrooms as real >= c.bedrooms.v)
    && (Above(c.bathrooms, 0.0) ==> l.bathrooms as real >= c.bathrooms.v)
    && (c.propertyType != "" ==>
          l.propertyType.Some? && ContainsIgnoringCase(l.propertyType.value, c.propertyType))
    && (|c.amenities| > 0 ==> HasAnyAmenity(l, c.amenities))
    && (c.instantBook ==> l.instantBook == Some(true))
  }

  /** The `$or` part: nothing to satisfy when neither a destination nor pets
      were given; otherwise a destination hit or a pet-friendly amenity. */
  predicate AlternativeFields(l: Listing, c: Criteria) {
    || (c.destination == "" && !Above(c.pets, 0.0))
    || (c.destination != "" && DestinationHit(l, c.destination))
    || (Above(c.pets, 0.0) && HasAnyAmenity(l, PetAmenities))
  }

  /** The search filter stated independently of the clause list: what a
      listing must satisfy to be retrieved. */
  predicate Admits(l: Listing, c: Criteria) {
    RequiredFields(l, c) && AlternativeFields(l, c)
  }

  lemma DestinationGroup(l: Listing, d: string)
    ensures HoldsSome(l, DestinationClauses(d)) <==> DestinationHit(l, d)
  {
    var cs := DestinationClauses(d);
    HoldsSomePointwise(l, cs);
    if DestinationHit(l, d) {
      if ContainsIgnoringCase(l.location, d) {
        assert Holds(l, cs[0]);
      } else if ContainsIgnoringCase(l.title, d) {
        assert Holds(l, cs[1]);
      } else {
        assert Holds(l, cs[2]);
      }
    }
  }

  lemma PriceMeaning(l: Listing, c: Criteria)
    ensures HoldsAll(l, PriceClause(c.minPrice, c.maxPrice)) <==>
      && (Above(c.minPrice, 0.0) ==> l.price >= c.minPrice.v)
      && (Below(c.maxPrice, 10000.0) ==> l.price <= c.maxPrice.v)
  {
    var a := PriceClause(c.minPrice, c.maxPrice);
    if |a| == 1 {
      assert a[1..] == [];
    }
  }

  lemma GuestsMeaning(l: Listing, total: Num)
    ensures HoldsAll(l, When(Above(total, 0.0), Range(MaxGuests, Some(total), None)))
        <==> (Above(total, 0.0) ==> l.maxGuests as real >= total.v)
  {
    HoldsAllWhen(l, Above(total, 0.0), Range(MaxGuests, Some(total), None));
  }

  lemma MinimumMeaning(l: Listing, f: NumField, b: Num)
    ensures HoldsAll(l, When(Above(b, 0.0), Range(f, Some(b), None)))
        <==> (Above(b, 0.0) ==> NumOf(l, f) >= b.v)
  {
    HoldsAllWhen(l, Above(b, 0.0), Range(f, Some(b), None));
  }

  lemma TypeMeaning(l: Listing, t: string)
    ensures HoldsAll(l, When(t != "", Regex(PropertyType, t)))
        <==> (t != "" ==> l.propertyType.Some? && ContainsIgnoringCase(l.propertyType.value, t))
  {
    HoldsAllWhen(l, t != "", Regex(PropertyType, t));
  }

  lemma AmenitiesMeaning(l: Listing, vs: seq<string>)
    ensures HoldsAll(l, When(|vs| > 0, AnyAmenity(vs))) <==> (|vs| > 0 ==> HasAnyAmenity(l, vs))
  {
    HoldsAllWhen(l, |vs| > 0, AnyAmenity(vs));
  }

  lemma InstantMeaning(l: Listing, b: bool)
    ensures HoldsAll(l, When(b, Equals(InstantBook, true))) <==> (b ==> l.instantBook == Some(true))
  {
    HoldsAllWhen(l, b, Equals(InstantBook, true));
  }

  lemma RequiredMeaning(l: Listing, c: Criteria)
    ensures HoldsAll(l, BuildQuery(c).all) <==> RequiredFields(l, c)
  {
    var total := TotalGuests(c);
    var a1 := When(Above(total, 0.0), Range(MaxGuests, Some(total), None));
    var a2 := PriceClause(c.minPrice, c.maxPrice);
    var a3 := When(Above(c.bedrooms, 0.0), Range(Bedrooms, Some(c.bedrooms), None));
    var a4 := When(Above(c.bathrooms, 0.0), Range(Bathrooms, Some(c.bathrooms), None));
    var a5 := When(c.propertyType != "", Regex(PropertyType, c.propertyType));
    var a6 := When(|c.amenities| > 0, AnyAmenity(c.amenities));
    var a7 := When(c.instantBook, Equals(InstantBook, true));
    assert BuildQuery(c).all == a1 + a2 + a3 + a4 + a5 + a6 + a7;
    HoldsAllConcat(l, a1 + a2 + a3 + a4 + a5 + a6, a7);
    HoldsAllConcat(l, a1 + a2 + a3 + a4 + a5, a6);
    HoldsAllConcat(l, a1 + a2 + a3 + a4, a5);
    HoldsAllConcat(l, a1 + a2 + a3, a4);
    HoldsAllConcat(l, a1 + a2, a3);
    HoldsAllConcat(l, a1, a2);
    GuestsMeaning(l, total);
    PriceMeaning(l, c);
    MinimumMeaning(l, Bedrooms, c.bedrooms);
    MinimumMeaning(l, Bathrooms, c.bathrooms);
    TypeMeaning(l, c.propertyType);
    AmenitiesMeaning(l, c.amenities);
    InstantMeaning(l, c.instantBook);
  }

  lemma AlternativeMeaning(l: Listing, c: Criteria)
    ensures (|BuildQuery(c).any| == 0 || HoldsSome(l, BuildQuery(c).any)) <==> AlternativeFields(l, c)
  {
    var d := if c.destination != "" then DestinationClauses(c.destination) else [];
    var pet := When(Above(c.pets, 0.0), PetClause);
    assert BuildQuery(c).any == d + pet;
    HoldsSomeConcat(l, d, pet);
    HoldsSomeWhen(l, Above(c.pets, 0.0), PetClause);
    if c.destination != "" {
      DestinationGroup(l, c.destination);
    }
  }

  /** The built filter selects exactly the listings `Admits` describes. */
  lemma QueryMeaning(l: Listing, c: Criteria)
    ensures Matches(l, BuildQuery(c)) <==> Admits(l, c)
  {
    RequiredMeaning(l, c);
    AlternativeMeaning(l, c);
  }

  /** With pets requested and a destination given, the one `$or` group holds
      the three destination alternatives and the pet clause, so a
      pet-friendly listing that mentions the destination nowhere still
      passes that group. */
  lemma PetsJoinDestinationGroup(c: Criteria, l: Listing)
    requires c.destination != "" && Above(c.pets, 0.0)
    ensures |BuildQuery(c).any| == 4
    ensures BuildQuery(c).any[3] == PetClause
    ensures HasAnyAmenity(l, PetAmenities) ==> HoldsSome(l, BuildQuery(c).any)
  {
    HoldsSomePointwise(l, BuildQuery(c).any);
    if HasAnyAmenity(l, PetAmenities) {
      assert Holds(l, BuildQuery(c).any[3]);
    }
  }

  /** With pets requested and no destination, the `$or` group is exactly the
      pet clause. */
  lemma PetsAloneGroup(c: Criteria)
    requires c.destination == "" && Above(c.pets, 0.0)
    ensures BuildQuery(c).any == [PetClause]
  {
  }

  /** The schema keeps no `type` and no `instantBook`, so a search that
      asks for a property type or for instant booking admits no listing
      created through it. */
  lemma CreatedListingsLackTypeAndInstant(d: Draft, id: string, now: int, c: Criteria)
    requires Create(d, id, now).Ok?
    requires c.propertyType != "" || c.instantBook
    ensures !Admits(Create(d, id, now).value, c)
  {
  }

  lemma GetUnaffected(p: Params, k: string)
    requires k != "checkIn" && k != "checkOut"
    ensures Get(p - {"checkIn", "checkOut"}, k) == Get(p, k)
  {
  }

  lemma GuestsIgnoreDates(p: Params)
    ensures var c, d := Decode(p), Decode(p - {"checkIn", "checkOut"});
      d.adults == c.adults && d.children == c.children && d.infants == c.infants && d.pets == c.pets
  {
    GetUnaffected(p, "adults");
    GetUnaffected(p, "children");
    GetUnaffected(p, "infants");
    GetUnaffected(p, "pets");
  }

  lemma FiltersIgnoreDates(p: Params)
    ensures var c, d := Decode(p), Decode(p - {"checkIn", "checkOut"});
      d.minPrice == c.minPrice && d.maxPrice == c.maxPrice
      && d.bedrooms == c.bedrooms && d.bathrooms == c.bathrooms
  {
    GetUnaffected(p, "minPrice");
    GetUnaffected(p, "maxPrice");
    GetUnaffected(p, "bedrooms");
    GetUnaffected(p, "bathrooms");
  }

  lemma TextIgnoresDates(p: Params)
    ensures var c, d := Decode(p), Decode(p - {"checkIn", "checkOut"});
      d.destination == c.destination && d.propertyType == c.propertyType
      && d.amenities == c.amenities && d.instantBook == c.instantBook
  {
    GetUnaffected(p, "destination");
    GetUnaffected(p, "propertyType");
    GetUnaffected(p, "amenities");
    GetUnaffected(p, "instantBook");
  }

  /** Check-in and check-out are parsed but never reach the filter. */
  lemma DatesIgnored(p: Params)
    ensures BuildQuery(Decode(p)) == BuildQuery(Decode(p - {"checkIn", "checkOut"}))
  {
    GuestsIgnoreDates(p);
    FiltersIgnoreDates(p);
    TextIgnoresDates(p);
    var c := Decode(p);
    var d := Decode(p - {"checkIn", "checkOut"});
    assert d == c.(checkIn := d.checkIn, checkOut := d.checkOut);
  }

  // ---------------------------------------------------------------------
  // Relevance score

  /** What the score reads of the request. */
  datatype ScoreCriteria = ScoreCriteria(destination: string, totalGuests: Num, minPrice: Num, maxPrice: Num)

  function ScoreCriteriaOf(c: Criteria): ScoreCriteria {
    ScoreCriteria(c.destination, TotalGuests(c), c.minPrice, c.maxPrice)
  }

  function LocationPoints(l: Listing, d: string): int {
    if d != "" && ContainsIgnoringCase(l.location, d) then 10 else 0
  }

  function TitlePoints(l: Listing, d: string): int {
    if d != "" && ContainsIgnoringCase(l.title, d) then 5 else 0
  }

  function GuestPoints(l: Listing, total: Num): int {
    if Above(total, 0.0) && l.maxGuests as real >= total.v then
      5 + (if l.maxGuests as real == total.v then 3 else 0)
    else 0
  }

  function PricePoints(l: Listing, minPrice: Num, maxPrice: Num): int {
    if AtLeast(l.price, minPrice) && AtMost(l.price, maxPrice) then 3 else 0
  }

  function RatingPoints(l: Listing): int {
    if l.rating >= HighRating then 2 else 0
  }

  /** A listing without a `reviews` count earns nothing here. */
  function ReviewPoints(l: Listing): int {
    if l.reviews.Some? && l.reviews.value > PopularReviews then 1 else 0
  }

  /** The relevance heuristic: a sum of six independent bonuses. */
  function RelevanceScore(l: Listing, sc: ScoreCriteria): (r: int)
    ensures 0 <= r <= 29
  {
    LocationPoints(l, sc.destination) + TitlePoints(l, sc.destination)
    + GuestPoints(l, sc.totalGuests) + PricePoints(l, sc.minPrice, sc.maxPrice)
    + RatingPoints(l) + ReviewPoints(l)
  }

  /** Two worked scores for a request for two guests in "rome" between 100
      and 200 a night. A listing in Rome titled "rome" for exactly two guests
      at 150, rated 4.8 with 60 reviews earns every bonus: 10 + 5 + 8 + 3 +
      2 + 1. The same listing sleeping six, rated 4.4 and without a review
      count earns 10 + 5 + 5 + 3. */
  lemma RelevanceExample()
    ensures var sc := ScoreCriteria("rome", N(2.0), N(100.0), N(200.0));
      var l := Listing("1", "rome", "Rome", "", "", 150.0, 4.8, [], false, "Rome", "Italy",
                       "", [], 2, 1, 1, 0, 0, Some(60), None, None);
      && RelevanceScore(l, sc) == 29
      && RelevanceScore(l.(maxGuests := 6, rating := 4.4, reviews := None), sc) == 23
  {
    assert Lower("rome") == "rome";
    assert Lower("Rome") == "rome";
    assert OccursAt("rome", "rome", 0);
  }

  /** The guest bonus by capacity: none when the listing is too small, 5 when
      it is larger than needed, 8 for an exact fit, and none when no guests
      were asked for. */
  lemma GuestPointsByCapacity(l: Listing, total: Num)
    ensures !Above(total, 0.0) ==> GuestPoints(l, total) == 0
    ensures Above(total, 0.0) && (l.maxGuests as real) < total.v ==> GuestPoints(l, total) == 0
    ensures Above(total, 0.0) && (l.maxGuests as real) > total.v ==> GuestPoints(l, total) == 5
    ensures Above(total, 0.0) && (l.maxGuests as real) == total.v ==> GuestPoints(l, total) == 8
  {
  }

  /** A destination found only in the description satisfies the filter's
      destination group but earns no location or title points. */
  lemma DescriptionOnlyMatch(l: Listing, d: string)
    requires d != ""
    requires !ContainsIgnoringCase(l.location, d) && !ContainsIgnoringCase(l.title, d)
    requires ContainsIgnoringCase(l.description, d)
    ensures HoldsSome(l, DestinationClauses(d))
    ensures LocationPoints(l, d) + TitlePoints(l, d) == 0
  {
    DestinationGroup(l, d);
  }

  /** Whatever the filter retrieves with guests requested earns the guest
      bonus, and with both price bounds narrowed it also earns the price
      bonus. */
  lemma MatchedEarnsBonuses(l: Listing, c: Criteria)
    requires Matches(l, BuildQuery(c))
    ensures Above(TotalGuests(c), 0.0) ==> GuestPoints(l, TotalGuests(c)) >= 5
    ensures Above(c.minPrice, 0.0) && Below(c.maxPrice, 10000.0) ==>
              PricePoints(l, c.minPrice, c.maxPrice) == 3
  {
    QueryMeaning(l, c);
  }

  // ---------------------------------------------------------------------
  // The handler

  function ScoreAll(ls: seq<Listing>, sc: ScoreCriteria): (r: seq<Scored>)
    ensures |r| == |ls|
    ensures forall k :: 0 <= k < |ls| ==> r[k].listing == ls[k]
    ensures forall k :: 0 <= k < |ls| ==> r[k].score == RelevanceScore(ls[k], sc)
  {
    seq(|ls|, k requires 0 <= k < |ls| => Scored(ls[k], RelevanceScore(ls[k], sc)))
  }

  /** The successful response body: ranked listings, their count and the
      decoded request echoed back. */
  datatype SearchResponse = SearchResponse(data: seq<Scored>, count: nat, echo: Criteria)

  /** The candidates the store returns: the first fifty matches in store
      order. */
  function Candidates(store: seq<Listing>, c: Criteria): (r: seq<Listing>)
    ensures var matches := Select(store, BuildQuery(c));
      && |r| == (if |matches| <= ResultLimit then |matches| else ResultLimit)
      && r == matches[..|r|]
    ensures forall l :: l in r ==> Admits(l, c) && l in store
    ensures |Select(store, BuildQuery(c))| <= ResultLimit ==>
              forall l :: l in store && Admits(l, c) ==> l in r
  {
    var r := Take(Select(store, BuildQuery(c)), ResultLimit);
    forall l | l in r ensures Admits(l, c) {
      QueryMeaning(l, c);
    }
    forall l | l in store && Admits(l, c) && |Select(store, BuildQuery(c))| <= ResultLimit
      ensures l in r
    {
      QueryMeaning(l, c);
    }
    r
  }

  lemma ScoredMember(ls: seq<Listing>, sc: ScoreCriteria, x: Scored)
    requires x in multiset(ScoreAll(ls, sc))
    ensures x.listing in ls && x.score == RelevanceScore(x.listing, sc)
  {
    var r := ScoreAll(ls, sc);
    var j :| 0 <= j < |r| && r[j] == x;
  }

  /** A permutation of the scored candidates still holds every candidate. */
  lemma RankingKeepsCandidates(cands: seq<Listing>, sc: ScoreCriteria, data: seq<Scored>)
    requires multiset(data) == multiset(ScoreAll(cands, sc))
    ensures forall l :: l in cands ==> exists k :: 0 <= k < |data| && data[k].listing == l
  {
    var scored := ScoreAll(cands, sc);
    forall l | l in cands
      ensures exists k :: 0 <= k < |data| && data[k].listing == l
    {
      var j :| 0 <= j < |cands| && cands[j] == l;
      assert scored[j] in multiset(scored);
      assert scored[j] in multiset(data);
      var k :| 0 <= k < |data| && data[k] == scored[j];
    }
  }

  /** GET /api/search over the collection `store`. */
  function HandleSearch(store: seq<Listing>, p: Params): (r: SearchResponse)
    ensures r.echo == Decode(p)
    ensures r.count == |r.data| <= ResultLimit
    ensures var scored := ScoreAll(Candidates(store, r.echo), ScoreCriteriaOf(r.echo));
      && multiset(r.data) == multiset(scored)
      && NonIncreasing(r.data)
      && forall s :: WithScore(r.data, s) == WithScore(scored, s)
    ensures forall k :: 0 <= k < |r.data| ==>
              && Admits(r.data[k].listing, r.echo)
              && r.data[k].score == RelevanceScore(r.data[k].listing, ScoreCriteriaOf(r.echo))
    ensures var matches := Select(store, BuildQuery(r.echo));
      && r.count == (if |matches| <= ResultLimit then |matches| else ResultLimit)
      && (|matches| <= ResultLimit ==>
            forall l :: l in store && Admits(l, r.echo) ==>
              exists k :: 0 <= k < |r.data| && r.data[k].listing == l)
  {
    var c := Decode(p);
    var cands := Candidates(store, c);
    var scored := ScoreAll(cands, ScoreCriteriaOf(c));
    var data := SortByScore(scored);
    RankingKeepsCandidates(cands, ScoreCriteriaOf(c), data);
    forall k | 0 <= k < |data|
      ensures Admits(data[k].listing, c)
      ensures data[k].score == RelevanceScore(data[k].listing, ScoreCriteriaOf(c))
    {
      assert data[k] in multiset(data);
      ScoredMember(cands, ScoreCriteriaOf(c), data[k]);
    }
    SearchResponse(data, |data|, c)
  }
}
