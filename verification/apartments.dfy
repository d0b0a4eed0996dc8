/**
 * The listing endpoint's GET handler: AND-only filter clauses gated by the
 * presence and truthiness of each parameter, a one-field sort spec, and
 * either full retrieval or skip/limit paging with page metadata.
 */
module Apartments {
  import opened Options
  import opened Strings
  import opened Numbers
  import opened Listings
  import opened Queries
  import opened Params

  const DefaultLimit: real := 20.0
  const DefaultSortField: string := "createdAt"

  /** `amenities.split(',').map(a => a.trim())`. */
  function AmenityList(s: string): (r: seq<string>)
    ensures |r| == |Split(s, ',')|
    ensures forall k :: 0 <= k < |r| ==> r[k] == Trim(Split(s, ',')[k])
  {
    var pieces := Split(s, ',');
    seq(|pieces|, k requires 0 <= k < |pieces| => Trim(pieces[k]))
  }

  /** A clause on a numeric path read from a truthy parameter. */
  function Minimum(p: Params, key: string, f: NumField, parse: string -> Num): seq<Clause> {
    When(Truthy(Get(p, key)), Range(f, Some(parse(GetOr(p, key, ""))), None))
  }

  function PriceBounds(p: Params): seq<Clause> {
    var lo := if Truthy(Get(p, "minPrice")) then Some(ParseFloat(p["minPrice"])) else None;
    var hi := if Truthy(Get(p, "maxPrice")) then Some(ParseFloat(p["maxPrice"])) else None;
    When(lo.Some? || hi.Some?, Range(Price, lo, hi))
  }

  /** The filter for GET /api/apartments: only AND-ed clauses. */
  function ListingQuery(p: Params): (q: Query)
    ensures q.any == []
  {
    Query(
      When(Truthy(Get(p, "city")), Regex(City, GetOr(p, "city", "")))
      + When(Truthy(Get(p, "country")), Regex(Country, GetOr(p, "country", "")))
      + PriceBounds(p)
      + Minimum(p, "minRating", Rating, ParseFloat)
      + Minimum(p, "maxGuests", MaxGuests, ParseInt)
      + Minimum(p, "bedrooms", Bedrooms, ParseInt)
      + Minimum(p, "bathrooms", Bathrooms, ParseInt)
      + When("isGuestFavorite" in p, Equals(GuestFavorite, Get(p, "isGuestFavorite") == Some("true")))
      + When(Truthy(Get(p, "amenities")), AnyAmenity(AmenityList(GetOr(p, "amenities", "")))),
      [])
  }

  /** `listing[field] >= parse(param)` when the parameter is truthy. */
  predicate MinimumHolds(l: Listing, p: Params, key: string, f: NumField, parse: string -> Num) {
    Truthy(Get(p, key)) ==> AtLeast(NumOf(l, f), parse(p[key]))
  }

  /** The listing filter stated field by field. */
  predicate ListingAdmits(l: Listing, p: Params) {
    && (Truthy(Get(p, "city")) ==> ContainsIgnoringCase(l.city, p["city"]))
    && (Truthy(Get(p, "country")) ==> ContainsIgnoringCase(l.country, p["country"]))
    && (Truthy(Get(p, "minPrice")) ==> AtLeast(l.price, ParseFloat(p["minPrice"])))
    && (Truthy(Get(p, "maxPrice")) ==> AtMost(l.price, ParseFloat(p["maxPrice"])))
    && MinimumHolds(l, p, "minRating", Rating, ParseFloat)
    && MinimumHolds(l, p, "maxGuests", MaxGuests, ParseInt)
    && MinimumHolds(l, p, "bedrooms", Bedrooms, ParseInt)
    && MinimumHolds(l, p, "bathrooms", Bathrooms, ParseInt)
    && ("isGuestFavorite" in p ==> l.isGuestFavorite == (p["isGuestFavorite"] == "true"))
    && (Truthy(Get(p, "amenities")) ==> HasAnyAmenity(l, AmenityList(p["amenities"])))
  }

  lemma MinimumMeaning(l: Listing, p: Params, key: string, f: NumField, parse: string -> Num)
    ensures HoldsAll(l, Minimum(p, key, f, parse)) <==> MinimumHolds(l, p, key, f, parse)
  {
    HoldsAllWhen(l, Truthy(Get(p, key)), Range(f, Some(parse(GetOr(p, key, ""))), None));
  }

  lemma PriceBoundsMeaning(l: Listing, p: Params)
    ensures HoldsAll(l, PriceBounds(p)) <==>
      && (Truthy(Get(p, "minPrice")) ==> AtLeast(l.price, ParseFloat(p["minPrice"])))
      && (Truthy(Get(p, "maxPrice")) ==> AtMost(l.price, ParseFloat(p["maxPrice"])))
  {
    var a := PriceBounds(p);
    if |a| == 1 {
      assert a[1..] == [];
    }
  }

  lemma TextMeaning(l: Listing, p: Params, key: string, f: TextField)
    requires f == City || f == Country
    ensures HoldsAll(l, When(Truthy(Get(p, key)), Regex(f, GetOr(p, key, ""))))
        <==> (Truthy(Get(p, key)) ==> ContainsIgnoringCase(TextOf(l, f).value, p[key]))
  {
    HoldsAllWhen(l, Truthy(Get(p, key)), Regex(f, GetOr(p, key, "")));
  }

  lemma FavoriteMeaning(l: Listing, p: Params)
    ensures HoldsAll(l, When("isGuestFavorite" in p, Equals(GuestFavorite, Get(p, "isGuestFavorite") == Some("true"))))
        <==> ("isGuestFavorite" in p ==> l.isGuestFavorite == (p["isGuestFavorite"] == "true"))
  {
    HoldsAllWhen(l, "isGuestFavorite" in p, Equals(GuestFavorite, Get(p, "isGuestFavorite") == Some("true")));
  }

  lemma AmenitiesMeaning(l: Listing, p: Params)
    ensures HoldsAll(l, When(Truthy(Get(p, "amenities")), AnyAmenity(AmenityList(GetOr(p, "amenities", "")))))
        <==> (Truthy(Get(p, "amenities")) ==> HasAnyAmenity(l, AmenityList(p["amenities"])))
  {
    HoldsAllWhen(l, Truthy(Get(p, "amenities")), AnyAmenity(AmenityList(GetOr(p, "amenities", ""))));
  }

  /** The built filter selects exactly the listings `ListingAdmits`
      describes. */
  lemma ListingQueryMeaning(l: Listing, p: Params)
    ensures Matches(l, ListingQuery(p)) <==> ListingAdmits(l, p)
  {
    var a1 := When(Truthy(Get(p, "city")), Regex(City, GetOr(p, "city", "")));
    var a2 := When(Truthy(Get(p, "country")), Regex(Country, GetOr(p, "country", "")));
    var a3 := PriceBounds(p);
    var a4 := Minimum(p, "minRating", Rating, ParseFloat);
    var a5 := Minimum(p, "maxGuests", MaxGuests, ParseInt);
    var a6 := Minimum(p, "bedrooms", Bedrooms, ParseInt);
    var a7 := Minimum(p, "bathrooms", Bathrooms, ParseInt);
    var a8 := When("isGuestFavorite" in p, Equals(GuestFavorite, Get(p, "isGuestFavorite") == Some("true")));
    var a9 := When(Truthy(Get(p, "amenities")), AnyAmenity(AmenityList(GetOr(p, "amenities", ""))));
    assert ListingQuery(p).all == a1 + a2 + a3 + a4 + a5 + a6 + a7 + a8 + a9;
    HoldsAllConcat(l, a1 + a2 + a3 + a4 + a5 + a6 + a7 + a8, a9);
    HoldsAllConcat(l, a1 + a2 + a3 + a4 + a5 + a6 + a7, a8);
    HoldsAllConcat(l, a1 + a2 + a3 + a4 + a5 + a6, a7);
    HoldsAllConcat(l, a1 + a2 + a3 + a4 + a5, a6);
    HoldsAllConcat(l, a1 + a2 + a3 + a4, a5);
    HoldsAllConcat(l, a1 + a2 + a3, a4);
    HoldsAllConcat(l, a1 + a2, a3);
    HoldsAllConcat(l, a1, a2);
    TextMeaning(l, p, "city", City);
    TextMeaning(l, p, "country", Country);
    PriceBoundsMeaning(l, p);
    MinimumMeaning(l, p, "minRating", Rating, ParseFloat);
    MinimumMeaning(l, p, "maxGuests", MaxGuests, ParseInt);
    MinimumMeaning(l, p, "bedrooms", Bedrooms, ParseInt);
    MinimumMeaning(l, p, "bathrooms", Bathrooms, ParseInt);
    FavoriteMeaning(l, p);
    AmenitiesMeaning(l, p);
  }

  /** The `sortObj`: one field, descending only for the literal `desc`. */
  datatype SortSpec = SortSpec(field: string, descending: bool)

  function SortOf(p: Params): (r: SortSpec)
    ensures r.field == (if Truthy(Get(p, "sortBy")) then p["sortBy"] else DefaultSortField)
    ensures r.descending <==> !Truthy(Get(p, "sortOrder")) || p["sortOrder"] == "desc"
  {
    SortSpec(GetOr(p, "sortBy", DefaultSortField), GetOr(p, "sortOrder", "desc") == "desc")
  }

  /** `limit ? parseInt(limit) : 20`. */
  function LimitOf(p: Params): Num {
    if Truthy(Get(p, "limit")) then ParseInt(p["limit"]) else N(DefaultLimit)
  }

  /** `skip ? parseInt(skip) : 0`. */
  function SkipOf(p: Params): Num {
    if Truthy(Get(p, "skip")) then ParseInt(p["skip"]) else N(0.0)
  }

  datatype Pagination = Pagination(
    currentPage: Ext, totalPages: Ext, hasNextPage: bool, hasPrevPage: bool, limit: Num, skip: Num)

  /** The page metadata, in JavaScript arithmetic: with a zero limit the
      quotients are infinite or NaN. */
  function PageInfo(p: Params, totalCount: nat): (r: Pagination)
    ensures !Truthy(Get(p, "skip")) ==> r.currentPage == Fin(1) && !r.hasPrevPage
    ensures LimitOf(p).N? && LimitOf(p).v > 0.0 ==>
              r.totalPages.Fin? && r.totalPages.i >= 0 && (totalCount == 0 ==> r.totalPages == Fin(0))
    ensures r.hasNextPage <==> Less(r.currentPage, r.totalPages)
  {
    var limit := LimitOf(p);
    var current := if Truthy(Get(p, "skip")) then PlusOne(FloorDiv(ParseInt(p["skip"]), limit)) else Fin(1);
    var total := CeilDiv(N(totalCount as real), limit);
    Pagination(current, total, Less(current, total), Less(Fin(1), current), limit, SkipOf(p))
  }

  /** The page numbers for an ordinary request, in integer arithmetic:
      page `skip div limit + 1` of `ceil(totalCount / limit)`, a previous
      page exactly when `skip >= limit`, a next page exactly when the
      current page is not the last. */
  lemma PageNumbers(p: Params, totalCount: nat, limit: nat, skip: nat)
    requires LimitOf(p) == N(limit as real) && limit > 0
    requires SkipOf(p) == N(skip as real)
    ensures PageInfo(p, totalCount).currentPage == Fin(skip / limit + 1)
    ensures PageInfo(p, totalCount).totalPages == Fin((totalCount + limit - 1) / limit)
    ensures PageInfo(p, totalCount).hasPrevPage <==> skip >= limit
    ensures PageInfo(p, totalCount).hasNextPage <==> skip / limit + 1 < (totalCount + limit - 1) / limit
  {
    var info := PageInfo(p, totalCount);
    if Truthy(Get(p, "skip")) {
      FloorOfQuotient(skip, limit);
    } else {
      assert skip == 0;
    }
    assert info.currentPage == Fin(skip / limit + 1);
    CeilOfQuotient(totalCount, limit);
    assert info.totalPages == Fin((totalCount + limit - 1) / limit);
    QuotientAtLeastOne(skip, limit);
  }

  lemma QuotientAtLeastOne(a: nat, b: nat)
    requires b > 0
    ensures a / b >= 1 <==> a >= b
  {
    var q, r := a / b, a % b;
    assert a == q * b + r && 0 <= r < b;
    if q >= 1 {
      MulNonNegative(q - 1, b);
      assert q * b == (q - 1) * b + b;
    }
  }

  lemma MulNonNegative(x: nat, y: nat)
    ensures x * y >= 0
  {
  }

  lemma FloorOfQuotient(a: nat, b: nat)
    requires b > 0
    ensures (a as real / b as real).Floor == a / b
  {
    var q := a / b;
    var r := a % b;
    assert a == q * b + r;
    assert (a as real) / (b as real) == q as real + (r as real) / (b as real);
    assert 0.0 <= (r as real) / (b as real) < 1.0;
  }

  lemma CeilOfQuotient(a: nat, b: nat)
    requires b > 0
    ensures -((-(a as real) / b as real).Floor) == (a + b - 1) / b
  {
    var q := (a + b - 1) / b;
    var r := (a + b - 1) % b;
    assert a + b - 1 == q * b + r;
    assert -(a as real) / (b as real) == -(q as real) + ((b - 1 - r) as real) / (b as real);
    assert 0.0 <= ((b - 1 - r) as real) / (b as real) < 1.0;
  }

  /** The worked example: 45 matches, 20 per page, skipping 20, is page 2 of
      3 with both neighbours. */
  lemma SecondOfThreePages()
    ensures var p := map["limit" := "20", "skip" := "20"];
            var info := PageInfo(p, 45);
            info.currentPage == Fin(2) && info.totalPages == Fin(3)
            && info.hasNextPage && info.hasPrevPage
  {
    var p := map["limit" := "20", "skip" := "20"];
    ParseIntOfString(20);
    assert NatToString(20) == "20" by {
      assert NatToString(2) == "2";
    }
    PageNumbers(p, 45, 20, 20);
  }

  datatype ListResponse = ListResponse(
    data: seq<Listing>, count: nat, totalCount: nat, pagination: Pagination, sort: SortSpec)

  /** The 500 response: the store rejected the request. */
  datatype ListError = StoreFailure

  /** The store's `skip`/`limit` window over the sorted matches. A negative
      skip, or a limit or skip that is not a number, is rejected by the
      store; a zero limit means no limit and a negative one is read as its
      magnitude. */
  function Window(matches: seq<Listing>, limit: Num, skip: Num): (r: Result<seq<Listing>, ListError>)
    ensures r.Err? <==> limit.NaN? || skip.NaN? || skip.v < 0.0
    ensures r.Ok? && limit.v >= 1.0 ==> |r.value| <= limit.v.Floor
    ensures r.Ok? && limit.v <= -1.0 ==> |r.value| <= (-limit.v).Floor
    ensures r.Ok? ==> || |r.value| == (if limit.v < 0.0 then (-limit.v).Floor else limit.v.Floor)
                      || skip.v.Floor + |r.value| >= |matches|
    ensures r.Ok? && limit.v == 0.0 ==> |r.value| == if skip.v.Floor < |matches| then |matches| - skip.v.Floor else 0
    ensures r.Ok? ==> forall k :: 0 <= k < |r.value| ==>
              skip.v.Floor + k < |matches| && r.value[k] == matches[skip.v.Floor + k]
  {
    if limit.NaN? || skip.NaN? || skip.v < 0.0 then Err(StoreFailure)
    else
      var s := skip.v.Floor;
      var start := if s < |matches| then s else |matches|;
      var size := if limit.v < 0.0 then (-limit.v).Floor else limit.v.Floor;
      var stop := if size == 0 || start + size > |matches| then |matches| else start + size;
      Ok(matches[start..stop])
  }

  /** A numeric parameter that is given but is not a numeral: its NaN bound
      reaches a Number path of the schema. */
  predicate NotANumeral(p: Params, key: string, parse: string -> Num) {
    Truthy(Get(p, key)) && parse(p[key]).NaN?
  }

  /** The schema's query casting rejects a NaN bound on a Number path, so the
      store throws before returning anything. */
  predicate CastFails(p: Params) {
    || NotANumeral(p, "minPrice", ParseFloat) || NotANumeral(p, "maxPrice", ParseFloat)
    || NotANumeral(p, "minRating", ParseFloat) || NotANumeral(p, "maxGuests", ParseInt)
    || NotANumeral(p, "bedrooms", ParseInt) || NotANumeral(p, "bathrooms", ParseInt)
  }

  /** GET /api/apartments, where `ordered` is the collection in the order
      the sort spec asks of the store. */
  function ListApartments(ordered: seq<Listing>, p: Params): (r: Result<ListResponse, ListError>)
    ensures CastFails(p) ==> r == Err(StoreFailure)
    ensures var matches := Select(ordered, ListingQuery(p));
      && (Get(p, "getAll") == Some("true") && !CastFails(p) ==>
            r.Ok? && r.value.data == matches && r.value.count == r.value.totalCount == |matches|)
      && (r.Ok? ==> r.value.totalCount == |matches| && r.value.count == |r.value.data|)
      && (r.Ok? ==> forall l :: l in r.value.data ==> ListingAdmits(l, p))
      && (r.Ok? ==> r.value.pagination == PageInfo(p, |matches|) && r.value.sort == SortOf(p))
    ensures var w := Window(Select(ordered, ListingQuery(p)), LimitOf(p), SkipOf(p));
      Get(p, "getAll") != Some("true") ==>
        (r.Ok? <==> !CastFails(p) && w.Ok?) && (r.Ok? ==> r.value.data == w.value)
  {
    var matches := Select(ordered, ListingQuery(p));
    forall l | l in matches ensures ListingAdmits(l, p) {
      ListingQueryMeaning(l, p);
    }
    var info := PageInfo(p, |matches|);
    if CastFails(p) then Err(StoreFailure)
    else if Get(p, "getAll") == Some("true") then
      Ok(ListResponse(matches, |matches|, |matches|, info, SortOf(p)))
    else
      match Window(matches, LimitOf(p), SkipOf(p))
      case Err(e) => Err(e)
      case Ok(page) =>
        assert forall l :: l in page ==> l in matches;
        Ok(ListResponse(page, |page|, |matches|, info, SortOf(p)))
  }

  function MinNat(a: nat, b: nat): nat {
    if a <= b then a else b
  }

  /** An ordinary request returns the slice `[skip, skip + limit)` of the
      sorted matches, so never more than `limit` listings nor more than the
      total. */
  lemma PagedSlice(ordered: seq<Listing>, p: Params, limit: nat, skip: nat)
    requires Get(p, "getAll") != Some("true") && !CastFails(p)
    requires LimitOf(p) == N(limit as real) && limit > 0
    requires SkipOf(p) == N(skip as real)
    ensures var matches := Select(ordered, ListingQuery(p));
            var r := ListApartments(ordered, p);
            && r.Ok?
            && r.value.data == matches[MinNat(skip, |matches|)..MinNat(skip + limit, |matches|)]
            && r.value.count <= MinNat(limit, r.value.totalCount)
  {
    WindowSlice(Select(ordered, ListingQuery(p)), limit, skip);
  }

  lemma WindowSlice(matches: seq<Listing>, limit: nat, skip: nat)
    requires limit > 0
    ensures Window(matches, N(limit as real), N(skip as real))
              == Ok(matches[MinNat(skip, |matches|)..MinNat(skip + limit, |matches|)])
  {
    assert (skip as real).Floor == skip;
    assert (limit as real).Floor == limit;
  }

  /** Without `limit` and `skip` the first twenty matches are returned. */
  lemma FirstPageByDefault(ordered: seq<Listing>, p: Params)
    requires Get(p, "getAll") != Some("true") && !CastFails(p)
    requires !Truthy(Get(p, "limit")) && !Truthy(Get(p, "skip"))
    ensures var matches := Select(ordered, ListingQuery(p));
            var r := ListApartments(ordered, p);
            && r.Ok?
            && r.value.data == matches[..MinNat(20, |matches|)]
            && r.value.pagination.currentPage == Fin(1)
            && !r.value.pagination.hasPrevPage
  {
    PagedSlice(ordered, p, 20, 0);
  }

  /** `isGuestFavorite` is gated by presence, not truthiness: alone in the
      request, any value other than `true` (`false` included) selects the
      listings that are not guest favourites. */
  lemma FavoriteByPresence(l: Listing, v: string)
    ensures Matches(l, ListingQuery(map["isGuestFavorite" := v])) <==> l.isGuestFavorite == (v == "true")
  {
    ListingQueryMeaning(l, map["isGuestFavorite" := v]);
  }

  /** A minimum that is not a numeral fails the request instead of
      filtering: `minRating=high` is answered with the store failure. */
  lemma UnparsableMinimumFails(ordered: seq<Listing>)
    ensures ListApartments(ordered, map["minRating" := "high"]) == Err(StoreFailure)
  {
    var p := map["minRating" := "high"];
    assert LeadingDigits("high") == "";
    assert NotANumeral(p, "minRating", ParseFloat);
  }

  /** Without any parameter every listing matches. */
  lemma NoParametersNoFilter(l: Listing)
    ensures Matches(l, ListingQuery(map[]))
  {
    ListingQueryMeaning(l, map[]);
  }

  lemma PoolFirst()
    ensures |AmenityList("Pool, Gym")| >= 1 && AmenityList("Pool, Gym")[0] == "Pool"
  {
    assert "Pool, Gym" == "Pool" + [','] + " Gym";
    SplitAfterPiece("Pool", ',', " Gym");
    assert Trim("Pool") == "Pool";
  }

  /** `trim` also strips Unicode spaces: a no-break space after the comma
      is removed like an ordinary one. */
  lemma NoBreakSpaceTrimmed()
    ensures AmenityList("Pool,\U{00A0}Gym") == ["Pool", "Gym"]
  {
    var gym := "\U{00A0}Gym";
    assert "Pool,\U{00A0}Gym" == "Pool" + [','] + gym;
    SplitAfterPiece("Pool", ',', gym);
    SplitFree(gym, ',');
    assert Trim("Pool") == "Pool";
    assert TrimStart(gym) == "Gym" by {
      assert gym[1..] == "Gym";
    }
    assert Trim(gym) == "Gym";
  }

  lemma OnlyAmenitiesRequested(l: Listing)
    requires "Pool" in l.amenities
    ensures ListingAdmits(l, map["amenities" := "Pool, Gym"])
  {
    var p := map["amenities" := "Pool, Gym"];
    assert !Truthy(Get(p, "city")) && !Truthy(Get(p, "country"));
    assert !Truthy(Get(p, "minPrice")) && !Truthy(Get(p, "maxPrice"));
    assert !Truthy(Get(p, "minRating")) && !Truthy(Get(p, "maxGuests"));
    assert !Truthy(Get(p, "bedrooms")) && !Truthy(Get(p, "bathrooms"));
    assert "isGuestFavorite" !in p;
    PoolFirst();
    var k :| 0 <= k < |l.amenities| && l.amenities[k] == "Pool";
    assert l.amenities[k] in AmenityList(p["amenities"]);
  }

  /** Requested amenities are any-match: `Pool, Gym` is split and trimmed,
      and a listing with only `Pool` satisfies the filter. */
  lemma AmenitiesAnyMatch(l: Listing)
    requires "Pool" in l.amenities
    ensures Matches(l, ListingQuery(map["amenities" := "Pool, Gym"]))
  {
    OnlyAmenitiesRequested(l);
    ListingQueryMeaning(l, map["amenities" := "Pool, Gym"]);
  }
}
