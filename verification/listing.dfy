/**
 * The stored listing document and the schema that admits it: required
 * fields, defaults, the rating bounds and the timestamps the store adds.
 */
module Listings {
  import opened Options

  /** A stored listing. `reviews`, `propertyType` (the document's `type`) and
      `instantBook` are read by the search endpoint but are not part of the
      schema, so only documents seeded outside the schema carry them. */
  datatype Listing = Listing(
    id: string,
    title: string,
    location: string,
    distance: string,
    dates: string,
    price: real,
    rating: real,
    images: seq<string>,
    isGuestFavorite: bool,
    city: string,
    country: string,
    description: string,
    amenities: seq<string>,
    maxGuests: int,
    bedrooms: int,
    bathrooms: int,
    createdAt: int,
    updatedAt: int,
    reviews: Option<int>,
    propertyType: Option<string>,
    instantBook: Option<bool>)

  const MinRating: real := 0.0
  const MaxRating: real := 5.0
  const DefaultMaxGuests: int := 2
  const DefaultBedrooms: int := 1
  const DefaultBathrooms: int := 1

  /** A document handed to the schema before it is saved; absent fields are
      `None`. */
  datatype Draft = Draft(
    title: Option<string>,
    location: Option<string>,
    distance: Option<string>,
    dates: Option<string>,
    price: Option<real>,
    rating: Option<real>,
    images: Option<seq<string>>,
    isGuestFavorite: Option<bool>,
    city: Option<string>,
    country: Option<string>,
    description: Option<string>,
    amenities: Option<seq<string>>,
    maxGuests: Option<int>,
    bedrooms: Option<int>,
    bathrooms: Option<int>)

  /** A `required` string path: present and not the empty string. */
  predicate RequiredText(s: Option<string>) {
    s.Some? && s.value != ""
  }

  predicate RatingInBounds(r: real) {
    MinRating <= r <= MaxRating
  }

  /** Each element of `images` is itself a required string. */
  predicate ImagesPresent(images: seq<string>) {
    forall k :: 0 <= k < |images| ==> images[k] != ""
  }

  /** What the schema guarantees of every listing it stores. */
  predicate Valid(l: Listing) {
    && l.title != "" && l.location != "" && l.city != "" && l.country != ""
    && RatingInBounds(l.rating)
    && ImagesPresent(l.images)
  }

  /** The paths that fail validation, in schema order. */
  function Failures(d: Draft): seq<string> {
    (if RequiredText(d.title) then [] else ["title"])
    + (if RequiredText(d.location) then [] else ["location"])
    + (if d.price.Some? then [] else ["price"])
    + (if d.rating.Some? && RatingInBounds(d.rating.value) then [] else ["rating"])
    + (if ImagesPresent(d.images.GetOr([])) then [] else ["images"])
    + (if RequiredText(d.city) then [] else ["city"])
    + (if RequiredText(d.country) then [] else ["country"])
  }

  /** Saving a draft: validation, then defaults and timestamps. Paths outside
      the schema are dropped, so the stored document has no `reviews`, `type`
      or `instantBook`. */
  function Create(d: Draft, id: string, now: int): (r: Result<Listing, seq<string>>)
    ensures r.Ok? <==>
      && RequiredText(d.title) && RequiredText(d.location)
      && RequiredText(d.city) && RequiredText(d.country)
      && d.price.Some? && d.rating.Some? && 0.0 <= d.rating.value <= 5.0
      && (d.images.None? || forall k :: 0 <= k < |d.images.value| ==> d.images.value[k] != "")
    ensures r.Err? ==> |r.error| > 0
    ensures r.Ok? ==> Valid(r.value)
    ensures r.Ok? ==>
      && r.value.id == id
      && r.value.title == d.title.value && r.value.location == d.location.value
      && r.value.city == d.city.value && r.value.country == d.country.value
      && r.value.price == d.price.value
      && r.value.images == (if d.images.Some? then d.images.value else [])
      && r.value.rating == d.rating.value
      && r.value.maxGuests == (if d.maxGuests.Some? then d.maxGuests.value else 2)
      && r.value.bedrooms == (if d.bedrooms.Some? then d.bedrooms.value else 1)
      && r.value.bathrooms == (if d.bathrooms.Some? then d.bathrooms.value else 1)
      && r.value.isGuestFavorite == (d.isGuestFavorite == Some(true))
      && r.value.distance == (if d.distance.Some? then d.distance.value else "")
      && r.value.dates == (if d.dates.Some? then d.dates.value else "")
      && r.value.description == (if d.description.Some? then d.description.value else "")
      && r.value.amenities == (if d.amenities.Some? then d.amenities.value else [])
      && r.value.createdAt == now && r.value.updatedAt == now
      && r.value.reviews.None? && r.value.propertyType.None? && r.value.instantBook.None?
  {
    var failures := Failures(d);
    if |failures| > 0 then Err(failures)
    else
      Ok(Listing(
        id := id,
        title := d.title.value,
        location := d.location.value,
        distance := d.distance.GetOr(""),
        dates := d.dates.GetOr(""),
        price := d.price.value,
        rating := d.rating.value,
        images := d.images.GetOr([]),
        isGuestFavorite := d.isGuestFavorite.GetOr(false),
        city := d.city.value,
        country := d.country.value,
        description := d.description.GetOr(""),
        amenities := d.amenities.GetOr([]),
        maxGuests := d.maxGuests.GetOr(DefaultMaxGuests),
        bedrooms := d.bedrooms.GetOr(DefaultBedrooms),
        bathrooms := d.bathrooms.GetOr(DefaultBathrooms),
        createdAt := now,
        updatedAt := now,
        reviews := None,
        propertyType := None,
        instantBook := None))
  }
}
