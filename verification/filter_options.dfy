/**
 * The search endpoint's POST handler: the option lists a filter panel is
 * populated from, aggregated over the whole collection.
 */
module FilterOptions {
  import opened Options
  import opened Listings
  import opened Sequences

  const DestinationLimit: nat := 20
  const AmenityLimit: nat := 30

  datatype FilterData =
    | Destinations(destinations: seq<string>)
    | PropertyTypes(propertyTypes: seq<string>)
    | Amenities(amenities: seq<string>)
    | PriceRange(minPrice: real, maxPrice: real, avgPrice: real)

  /** The 400 response for an unrecognised `type`. */
  datatype FilterError = InvalidFilterType

  predicate Distinct<T(==)>(xs: seq<T>) {
    forall i, j :: 0 <= i < j < |xs| ==> xs[i] != xs[j]
  }

  /** Position of the first occurrence of `x` in `xs`. */
  function FirstIndex<T(==)>(xs: seq<T>, x: T): (i: nat)
    requires x in xs
    ensures i < |xs| && xs[i] == x
    ensures forall k :: 0 <= k < i ==> xs[k] != x
  {
    if xs[0] == x then 0 else 1 + FirstIndex(xs[1..], x)
  }

  lemma FirstIndexInPrefix<T>(xs: seq<T>, y: T, x: T)
    requires x in xs
    ensures x in xs + [y] && FirstIndex(xs + [y], x) == FirstIndex(xs, x)
  {
    var i := FirstIndex(xs, x);
    assert (xs + [y])[i] == x;
    assert forall k :: 0 <= k < i ==> (xs + [y])[k] == xs[k];
  }

  /** The values of `xs` without repeats, in order of first occurrence: what
      iterating a JavaScript `Set` filled from `xs` yields. */
  function Dedup(xs: seq<string>): (r: seq<string>)
    ensures Distinct(r)
    ensures forall x :: x in r <==> x in xs
    ensures |r| <= |xs|
    ensures forall i, j :: 0 <= i < j < |r| ==> FirstIndex(xs, r[i]) < FirstIndex(xs, r[j])
  {
    if |xs| == 0 then []
    else
      var init := xs[..|xs| - 1];
      var last := xs[|xs| - 1];
      assert xs == init + [last];
      var d := Dedup(init);
      forall x | x in d ensures FirstIndex(xs, x) == FirstIndex(init, x) && FirstIndex(xs, x) < |init| {
        FirstIndexInPrefix(init, last, x);
      }
      if last in d then d
      else
        assert last !in init;
        assert FirstIndex(xs, last) == |init|;
        d + [last]
  }

  /** Every listing's amenities, one listing after another. */
  function AllAmenities(store: seq<Listing>): (r: seq<string>)
    ensures forall a :: a in r <==> exists l :: l in store && a in l.amenities
  {
    if |store| == 0 then []
    else
      var rest := AllAmenities(store[1..]);
      assert forall l :: l in store[1..] ==> l in store;
      assert forall l :: l in store ==> l == store[0] || l in store[1..];
      store[0].amenities + rest
  }

  /** The `type` values present in the collection, in store order. */
  function AllTypes(store: seq<Listing>): (r: seq<string>)
    ensures forall t :: t in r <==> exists l :: l in store && l.propertyType == Some(t)
  {
    if |store| == 0 then []
    else
      var rest := AllTypes(store[1..]);
      assert forall l :: l in store[1..] ==> l in store;
      assert forall l :: l in store ==> l == store[0] || l in store[1..];
      (if store[0].propertyType.Some? then [store[0].propertyType.value] else []) + rest
  }

  function Locations(store: seq<Listing>): (r: seq<string>)
    ensures |r| == |store|
    ensures forall k :: 0 <= k < |store| ==> r[k] == store[k].location
  {
    seq(|store|, k requires 0 <= k < |store| => store[k].location)
  }

  function Prices(store: seq<Listing>): (r: seq<real>)
    ensures |r| == |store|
    ensures forall k :: 0 <= k < |store| ==> r[k] == store[k].price
  {
    seq(|store|, k requires 0 <= k < |store| => store[k].price)
  }

  function Sum(xs: seq<real>): real {
    if |xs| == 0 then 0.0 else xs[0] + Sum(xs[1..])
  }

  /** The smallest value, as the store's `$min` reports it. */
  function Min(xs: seq<real>): (m: real)
    requires |xs| > 0
    ensures m in xs
    ensures forall k :: 0 <= k < |xs| ==> m <= xs[k]
  {
    if |xs| == 1 then xs[0]
    else
      var rest := Min(xs[1..]);
      assert forall k :: 1 <= k < |xs| ==> xs[k] == xs[1..][k - 1];
      if xs[0] <= rest then xs[0] else rest
  }

  /** The largest value, as the store's `$max` reports it. */
  function Max(xs: seq<real>): (m: real)
    requires |xs| > 0
    ensures m in xs
    ensures forall k :: 0 <= k < |xs| ==> xs[k] <= m
  {
    if |xs| == 1 then xs[0]
    else
      var rest := Max(xs[1..]);
      assert forall k :: 1 <= k < |xs| ==> xs[k] == xs[1..][k - 1];
      if xs[0] >= rest then xs[0] else rest
  }

  lemma {:induction false} SumBounds(xs: seq<real>, lo: real, hi: real)
    requires forall k :: 0 <= k < |xs| ==> lo <= xs[k] <= hi
    ensures |xs| as real * lo <= Sum(xs) <= |xs| as real * hi
  {
    if |xs| > 0 {
      assert forall k :: 0 <= k < |xs[1..]| ==> xs[1..][k] == xs[k + 1];
      SumBounds(xs[1..], lo, hi);
      var m := |xs[1..]| as real;
      assert |xs| as real * lo == m * lo + lo;
      assert |xs| as real * hi == m * hi + hi;
    }
  }

  /** The mean of values that lie between `lo` and `hi` lies there too. */
  lemma MeanBetween(xs: seq<real>, lo: real, hi: real)
    requires |xs| > 0
    requires forall k :: 0 <= k < |xs| ==> lo <= xs[k] <= hi
    ensures lo <= Sum(xs) / |xs| as real <= hi
  {
    SumBounds(xs, lo, hi);
    DivideBounds(Sum(xs), |xs| as real, lo);
    DivideBounds(Sum(xs), |xs| as real, hi);
  }

  lemma DivideBounds(s: real, n: real, c: real)
    requires n > 0.0
    ensures n * c <= s ==> c <= s / n
    ensures s <= n * c ==> s / n <= c
  {
    assert (s / n) * n == s;
  }

  /** Multiplying a mean back by the count recovers the sum. */
  lemma MeanTimesCount(s: real, n: real)
    requires n > 0.0
    ensures (s / n) * n == s
  {
  }

  /** The arithmetic mean, as the store's `$avg` reports it: times the
      count it gives back the sum. */
  function Mean(xs: seq<real>): (m: real)
    requires |xs| > 0
    ensures m * |xs| as real == Sum(xs)
  {
    MeanTimesCount(Sum(xs), |xs| as real);
    Sum(xs) / |xs| as real
  }

  /** The `priceRange` answer: the hard-coded default for an empty
      collection, otherwise the minimum, maximum and mean price. */
  function PriceSummary(store: seq<Listing>): (r: FilterData)
    ensures r.PriceRange?
    ensures |store| == 0 ==> r == PriceRange(0.0, 1000.0, 100.0)
    ensures |store| > 0 ==>
      && (exists l :: l in store && l.price == r.minPrice)
      && (exists l :: l in store && l.price == r.maxPrice)
      && (forall l :: l in store ==> r.minPrice <= l.price <= r.maxPrice)
      && r.minPrice <= r.avgPrice <= r.maxPrice
      && r.avgPrice == Mean(Prices(store))
  {
    if |store| == 0 then PriceRange(0.0, 1000.0, 100.0)
    else
      var ps := Prices(store);
      var lo := Min(ps);
      var hi := Max(ps);
      MeanBetween(ps, lo, hi);
      var avg := Mean(ps);
      forall l | l in store ensures lo <= l.price <= hi {
        var k :| 0 <= k < |store| && store[k] == l;
      }
      var i :| 0 <= i < |ps| && ps[i] == lo;
      assert store[i] in store;
      var j :| 0 <= j < |ps| && ps[j] == hi;
      assert store[j] in store;
      PriceRange(lo, hi, avg)
  }

  /** POST /api/search with body `{ type: kind }`. */
  function FilterOptionsFor(store: seq<Listing>, kind: string): (r: Result<FilterData, FilterError>)
    ensures r.Err? <==> kind !in {"destinations", "propertyTypes", "amenities", "priceRange"}
    ensures kind == "destinations" ==>
      && r.Ok? && r.value.Destinations?
      && |r.value.destinations| <= DestinationLimit
      && Distinct(r.value.destinations)
      && (forall d :: d in r.value.destinations ==> exists l :: l in store && l.location == d)
      && (var all := Dedup(Locations(store));
          && |r.value.destinations| == (if |all| <= DestinationLimit then |all| else DestinationLimit)
          && r.value.destinations == all[..|r.value.destinations|]
          && (|all| <= DestinationLimit ==> forall l :: l in store ==> l.location in r.value.destinations))
    ensures kind == "propertyTypes" ==>
      && r.Ok? && r.value.PropertyTypes?
      && Distinct(r.value.propertyTypes)
      && forall t :: t in r.value.propertyTypes <==> exists l :: l in store && l.propertyType == Some(t)
    ensures kind == "amenities" ==>
      && r.Ok? && r.value.Amenities?
      && |r.value.amenities| <= AmenityLimit
      && Distinct(r.value.amenities)
      && (forall a :: a in r.value.amenities ==> exists l :: l in store && a in l.amenities)
      && (forall a :: a in r.value.amenities ==> a in AllAmenities(store))
      && (forall i, j :: 0 <= i < j < |r.value.amenities| ==>
            FirstIndex(AllAmenities(store), r.value.amenities[i])
            < FirstIndex(AllAmenities(store), r.value.amenities[j]))
      && (var all := Dedup(AllAmenities(store));
          && |r.value.amenities| == (if |all| <= AmenityLimit then |all| else AmenityLimit)
          && r.value.amenities == all[..|r.value.amenities|]
          && (|all| <= AmenityLimit ==>
                forall l, a :: l in store && a in l.amenities ==> a in r.value.amenities))
    ensures kind == "priceRange" ==> r.Ok? && r.value.PriceRange? && r.value == PriceSummary(store)
    ensures kind == "priceRange" && |store| == 0 ==> r == Ok(PriceRange(0.0, 1000.0, 100.0))
  {
    if kind == "destinations" then
      var ds := Dedup(Locations(store));
      var top := Take(ds, DestinationLimit);
      forall d | d in top ensures exists l :: l in store && l.location == d {
        assert d in Locations(store);
        var k :| 0 <= k < |store| && Locations(store)[k] == d;
        assert store[k] in store;
      }
      forall l | l in store && |ds| <= DestinationLimit ensures l.location in top {
        var k :| 0 <= k < |store| && store[k] == l;
        assert Locations(store)[k] == l.location;
      }
      Ok(Destinations(top))
    else if kind == "propertyTypes" then
      Ok(PropertyTypes(Dedup(AllTypes(store))))
    else if kind == "amenities" then
      var all := Dedup(AllAmenities(store));
      var top := Take(all, AmenityLimit);
      forall a | a in top ensures exists l :: l in store && a in l.amenities {
        assert a in AllAmenities(store);
      }
      Ok(Amenities(top))
    else if kind == "priceRange" then
      Ok(PriceSummary(store))
    else
      Err(InvalidFilterType)
  }
}
