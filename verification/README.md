# Rental search: a Dafny model

This project models the search and listing core of a holiday-rental web
application written in TypeScript (Next.js with a MongoDB store). It covers:

- **shared helpers**: `Sequences` (taking a prefix, and the subsequence
  order that a store query keeps), `Strings`, `Numbers`, `Params`,
  `Options` and `Queries`, the store filter language.
- **the listing schema** (`Listings`): the stored apartment document, which
  fields are required, the rating bounds, the defaults, and the timestamps
  the store adds.
- **the search endpoint**:
  - `Search`: the GET handler. It decodes the URL parameters into search
    criteria and builds the store filter. The filter has an AND part and an
    `$or` part. The handler takes the first fifty matches, scores each one
    with the relevance heuristic, and sorts them by score. The sort is
    stable (`Ranking`).
  - `FilterOptions`: the POST handler. It returns the filter-panel options
    (destinations, property types, amenities, price range).
- **the apartments endpoint** (`Apartments`): the listing filter, the sort
  specification, the store's `skip`/`limit` window, and the pagination
  metadata. The metadata uses JavaScript arithmetic, so a zero limit gives
  infinite or NaN page numbers.
- **the client side**:
  - `ClientSearch`: the search hook. It encodes the request parameters and
    tracks the loading, result and error state.
  - `SearchBar`: the search bar. It covers the guest counters, dropdowns,
    destination suggestions, date selection, and the month calendar.
  - `PropertyGrid`: the property grid. It covers the per-card image index,
    which wraps with `%`, and the generated sample listings.
  - `SearchResults`: the results page, meaning which panel is shown and the
    card image carousel.
  - `HomeCarousels`: the home-page carousels and their clamped scroll
    positions.
  - `Favorites`: the favourites toggle that three components share.

The store, the network and React's rendering are not modelled. A query
against the store is modelled as a pure filter over a sequence of listings
(`Queries.Select`). JavaScript numbers are modelled as `Numbers.Num`, which
is NaN or a real number. `parseInt` and `parseFloat` are modelled as prefix
parses that skip leading white space. `trim` strips the same white space,
Unicode spaces included. Case-insensitive matching lower-cases ASCII letters
only.

Each operation has a partner definition, and lemmas connect the two:

- The store filter each handler builds is proved equivalent to a
  field-by-field predicate (`Search.QueryMeaning`,
  `Apartments.ListingQueryMeaning`).
- The client's URL encoding is proved to decode on the server to the
  criteria the user chose (`ClientSearch.EncodeDecode`).
- The image carousels are proved to wrap and invert
  (`PropertyGrid.PrevUndoesNext`, `PropertyGrid.FullCycle`).
- The ranking is proved to be a stable permutation into non-increasing
  score order (`Ranking.SortByScore`).

## Model

| member | source | states |
|---|---|---|
| Listings.Create | src/models/Apartment.ts:24-88 | saving succeeds exactly when title, location, city and country are non-empty, price and a rating in [0, 5] are present, and every image string is non-empty; a failure names at least one path; a saved listing keeps the given id, title, location, city, country, price, rating and images, takes the defaults (2 guests, 1 bedroom, 1 bathroom, not a favourite, empty texts and lists) and equal creation and update times, and has no `reviews`, `type` or `instantBook` |
| Queries.Select | src/app/api/search/route.ts:125-127 | the store returns the documents that match the filter, and only those, in store order (a subsequence of the store) |
| Search.Decode | src/app/api/search/route.ts:36-49 | the date texts are read as given; each count is the `parseInt` of its parameter, or 0 when it is absent or empty; each price bound is the `parseFloat` of its parameter, or 0 and 10000; the destination and property type are the parameter or empty; when `amenities` is present it is split on commas (at least one piece), otherwise no amenities; instant booking holds only for the literal `true` |
| Search.DefaultNumerals | src/app/api/search/route.ts:39-46 | the default texts `0` and `10000` parse to 0 and 10000 |
| Numbers.LeadingSpaceSkipped | src/app/api/search/route.ts:39-46 | `parseFloat` and `parseInt` skip leading white space, a no-break space included: ` 5` reads as 5 and a no-break space before `-5` as -5 |
| Search.PriceClause | src/app/api/search/route.ts:71-75 | a price clause is emitted exactly when a bound leaves its default (minimum above 0 or maximum below 10000), and it carries exactly the bounds that do |
| Search.DestinationGroup | src/app/api/search/route.ts:56-62 | the destination alternatives hold exactly when location, title or description contains the destination, ignoring case |
| Search.GuestsMeaning | src/app/api/search/route.ts:64-68 | with adults plus children above 0, the listing must hold at least that many guests |
| Search.PriceMeaning | src/app/api/search/route.ts:71-75 | the price clause holds exactly when the price respects each non-default bound |
| Search.MinimumMeaning | src/app/api/search/route.ts:78-85 | a bedroom or bathroom count above 0 is a lower bound on the listing's count |
| Search.TypeMeaning | src/app/api/search/route.ts:88-90 | a property type is a case-insensitive substring test on the listing's `type`, and it fails for a listing without one |
| Search.AmenitiesMeaning | src/app/api/search/route.ts:93-95 | a non-empty amenity list requires at least one of the listed amenities |
| Search.InstantMeaning | src/app/api/search/route.ts:98-100 | instant booking requires the listing's flag to be true |
| Search.RequiredMeaning | src/app/api/search/route.ts:64-100 | the AND part of the filter holds exactly when every requested field condition holds |
| Search.AlternativeMeaning | src/app/api/search/route.ts:56-106 | the `$or` part holds exactly when neither destination nor pets were given, or the destination hits, or pets were asked for and the listing is pet-friendly |
| Search.QueryMeaning | src/app/api/search/route.ts:51-106 | a listing matches the built filter exactly when it satisfies the field-by-field admission predicate |
| Search.PetsJoinDestinationGroup | src/app/api/search/route.ts:103-106 | with both a destination and pets, the pet clause becomes a fourth alternative, so a pet-friendly listing matches whatever its location |
| Search.PetsAloneGroup | src/app/api/search/route.ts:103-106 | with pets and no destination, the pet clause is the only alternative |
| Search.CreatedListingsLackTypeAndInstant | src/app/api/search/route.ts:88-100 | no listing saved through the schema passes a property-type or instant-booking filter |
| Search.GuestsIgnoreDates | src/app/api/search/route.ts:38-42 | the decoded guest counts do not depend on the date parameters |
| Search.FiltersIgnoreDates | src/app/api/search/route.ts:44-47 | the decoded price bounds and room counts do not depend on the date parameters |
| Search.TextIgnoresDates | src/app/api/search/route.ts:36-49 | the decoded destination, type, amenities and instant-booking flag do not depend on the date parameters |
| Search.DatesIgnored | src/app/api/search/route.ts:108-122 | the date check adds no clause: the filter is the same with or without `checkIn` and `checkOut` |
| Search.RelevanceScore | src/app/api/search/route.ts:171-211 | the relevance score lies between 0 and 29 |
| Search.GuestPointsByCapacity | src/app/api/search/route.ts:184-193 | the guest bonus is 0 when no guests are asked for or the listing is too small, 5 when it is larger than needed, and 8 for an exact fit |
| Search.RelevanceExample | src/app/api/search/route.ts:171-211 | worked scores: an exact-fit, in-budget listing in and titled after the destination, rated 4.8 with 60 reviews, scores 10 + 5 + 8 + 3 + 2 + 1 = 29; the same listing sleeping six, rated 4.4, without a review count, scores 23 |
| Search.DescriptionOnlyMatch | src/app/api/search/route.ts:56-62 | a destination found only in the description passes the filter's destination group but earns no location or title points |
| Search.MatchedEarnsBonuses | src/app/api/search/route.ts:175-198 | every retrieved listing earns the guest bonus when guests were asked for, and the price bonus when both bounds were narrowed |
| Sequences.Take | src/app/api/search/route.ts:126 | exactly min(n, length) elements, and they are the prefix of the input |
| Search.ScoreAll | src/app/api/search/route.ts:130-142 | each candidate keeps its position and gets its relevance score |
| Search.Candidates | src/app/api/search/route.ts:125-127 | exactly the first min(50, matches) store matches, in store order; each is from the store and admitted by the criteria; when there are at most fifty matches, every admitted listing of the store is a candidate |
| Search.HandleSearch | src/app/api/search/route.ts:29-160 | the response echoes the decoded criteria and counts min(50, matches) entries; it is a permutation of the scored candidates in non-increasing score order, entries with equal scores keep store order, and every entry is admitted and carries its own score; with at most fifty matches every admitted listing of the store appears |
| Search.RankingKeepsCandidates | src/app/api/search/route.ts:130-142 | any permutation of the scored candidates still holds an entry for every candidate |
| Ranking.SortByScore | src/app/api/search/route.ts:142 | the sort is a permutation into non-increasing score order, and it is stable |
| Ranking.InsertPermutes | src/app/api/search/route.ts:142 | inserting one entry permutes the entry and the sequence together |
| Ranking.InsertKeepsOrder | src/app/api/search/route.ts:142 | inserting into a non-increasing sequence keeps it non-increasing |
| Ranking.InsertKeepsTies | src/app/api/search/route.ts:142 | inserting places the new entry before the existing entries of equal score |
| FilterOptions.Dedup | src/app/api/search/route.ts:236-240 | a set built from a sequence yields each distinct value once, in order of first occurrence |
| FilterOptions.AllAmenities | src/app/api/search/route.ts:235-239 | an amenity is collected exactly when some listing has it |
| FilterOptions.AllTypes | src/app/api/search/route.ts:229-232 | a type is collected exactly when some listing carries it |
| FilterOptions.SumBounds | src/app/api/search/route.ts:243-253 | a sum of n values between lo and hi lies between n·lo and n·hi |
| FilterOptions.MeanBetween | src/app/api/search/route.ts:243-253 | the mean of values between lo and hi lies between them |
| FilterOptions.Mean | src/app/api/search/route.ts:249 | the `$avg` of the prices: multiplied by their number it gives back their sum |
| FilterOptions.PriceSummary | src/app/api/search/route.ts:243-255 | an empty collection gives the default range 0, 1000 and 100; otherwise the minimum and maximum are prices of listings and bound every price, and the average is the mean of the prices, which lies between them |
| FilterOptions.FilterOptionsFor | src/app/api/search/route.ts:214-261 | only the four known types succeed; destinations are exactly the first min(20, distinct) distinct locations in first-seen order, so every location is present when there are at most twenty; property types are exactly the distinct types present; amenities are likewise the first min(30, distinct) distinct amenities, every one present when there are at most thirty; the price range is the store's summary of minimum, maximum and mean price (`FilterOptions.PriceSummary`) |
| Apartments.AmenityList | src/app/api/apartments/route.ts:74-77 | the amenity parameter is split on commas and each piece is trimmed of ECMAScript white space and line terminators, Unicode spaces included |
| Apartments.ListingQuery | src/app/api/apartments/route.ts:28-77 | the listing filter has no alternatives, only AND-ed clauses |
| Apartments.MinimumMeaning | src/app/api/apartments/route.ts:49-66 | the clause for a non-empty minimum parameter holds exactly when the field is at least the parsed value, and an empty parameter adds no condition |
| Apartments.PriceBoundsMeaning | src/app/api/apartments/route.ts:41-46 | the price clause holds exactly when each non-empty price parameter bounds the price |
| Apartments.TextMeaning | src/app/api/apartments/route.ts:31-39 | a non-empty city or country is a case-insensitive substring test on that field |
| Apartments.FavoriteMeaning | src/app/api/apartments/route.ts:69-71 | whenever `isGuestFavorite` is present, the listing's flag must equal whether the value is `true` |
| Apartments.AmenitiesMeaning | src/app/api/apartments/route.ts:74-77 | a non-empty amenity parameter requires one of the listed amenities |
| Apartments.ListingQueryMeaning | src/app/api/apartments/route.ts:28-77 | a listing matches the filter exactly when it satisfies the field-by-field admission predicate |
| Apartments.SortOf | src/app/api/apartments/route.ts:24-25 | the sort field defaults to `createdAt`, and the order is descending unless a non-empty order other than `desc` is given |
| Apartments.PageInfo | src/app/api/apartments/route.ts:106-120 | without `skip` the current page is 1 and there is no previous page; with a positive limit the page count is a finite non-negative number (0 for an empty result); there is a next page exactly when the current page is below the page count |
| Apartments.PageNumbers | src/app/api/apartments/route.ts:106-120 | for a positive limit and non-negative skip, the current page is skip div limit + 1 of ceil(total / limit); there is a previous page exactly when skip ≥ limit |
| Apartments.QuotientAtLeastOne | src/app/api/apartments/route.ts:106 | the floor of a / b is at least one exactly when a ≥ b |
| Apartments.FloorOfQuotient | src/app/api/apartments/route.ts:106 | `Math.floor` of a quotient of naturals is integer division |
| Apartments.CeilOfQuotient | src/app/api/apartments/route.ts:107 | `Math.ceil` of a quotient of naturals is (a + b - 1) div b |
| Apartments.SecondOfThreePages | src/app/api/apartments/route.ts:106-120 | limit 20 and skip 20 over 45 matches is page 2 of 3, with a next and a previous page |
| Apartments.Window | src/app/api/apartments/route.ts:92-99 | the store rejects a NaN limit or skip and a negative skip; otherwise it returns consecutive matches from position skip: all the rest for a zero limit, and otherwise never more than the limit's magnitude, a negative limit counting like its absolute value, and either that many or every match to the end |
| Apartments.ListApartments | src/app/api/apartments/route.ts:5-145 | a non-empty numeric parameter that is not a numeral makes the store fail, as the schema's cast of `NaN` does; otherwise `getAll=true` returns every match, and an ordinary request holds the store's window and fails exactly when the store rejects it; every returned listing is admitted; total count, count, pagination and sort are reported |
| Apartments.UnparsableMinimumFails | src/app/api/apartments/route.ts:49-145 | `minRating=high` is answered with the store failure, not with an empty page |
| Apartments.WindowSlice | src/app/api/apartments/route.ts:96-99 | for a positive limit the window is the slice from skip to skip + limit, cut at the end of the matches |
| Apartments.PagedSlice | src/app/api/apartments/route.ts:92-103 | an ordinary request whose numeric parameters are numerals succeeds with that slice, so never more than `limit` listings nor more than the total |
| Apartments.FirstPageByDefault | src/app/api/apartments/route.ts:92-120 | without limit and skip (and with numeral bounds) the response is the first twenty matches, on page 1 with no previous page |
| Apartments.FavoriteByPresence | src/app/api/apartments/route.ts:69-71 | with only `isGuestFavorite` given, any value other than `true` selects exactly the non-favourites |
| Apartments.NoParametersNoFilter | src/app/api/apartments/route.ts:28-77 | with no parameters every listing matches |
| Apartments.PoolFirst | src/app/api/apartments/route.ts:75-76 | `Pool, Gym` splits into a first amenity `Pool` without surrounding spaces |
| Apartments.NoBreakSpaceTrimmed | src/app/api/apartments/route.ts:74-77 | `Pool,<no-break space>Gym` splits into exactly `Pool` and `Gym` |
| Apartments.OnlyAmenitiesRequested | src/app/api/apartments/route.ts:74-77 | a listing with a pool is admitted by the request `amenities=Pool, Gym` |
| Apartments.AmenitiesAnyMatch | src/app/api/apartments/route.ts:74-77 | a listing with a pool matches the filter for `amenities=Pool, Gym` |
| ClientSearch.Encode | src/hooks/useSearch.ts:75-88 | only the fourteen known parameters are set, each exactly under the hook's condition (non-empty text, positive count, defined price, non-empty amenity list, instant booking on) |
| ClientSearch.CountRoundTrip | src/hooks/useSearch.ts:78-81 | a guest count that was sent parses back to itself, and one that was left out reads as 0 |
| ClientSearch.OptionalCountRoundTrip | src/hooks/useSearch.ts:84-85 | an optional room count reads back as itself when positive and as 0 otherwise |
| ClientSearch.PriceRoundTrip | src/hooks/useSearch.ts:82-83 | a defined price reads back as itself; an undefined one reads as the server's default |
| ClientSearch.GuestsRoundTrip | src/hooks/useSearch.ts:78-81 | the server decodes each guest count as sent, or as 0 |
| ClientSearch.FiltersRoundTrip | src/hooks/useSearch.ts:82-85 | the server decodes the prices and room counts as sent, or as their defaults |
| ClientSearch.RoomsRoundTrip | src/hooks/useSearch.ts:84-85 | the server decodes the bedroom and bathroom counts as sent when positive, or as 0 |
| ClientSearch.PricesRoundTrip | src/hooks/useSearch.ts:82-83 | the server decodes each defined price as sent, and an undefined one as its default 0 or 10000 |
| ClientSearch.TextRoundTrip | src/hooks/useSearch.ts:75-88 | the server decodes destination, property type, amenities and instant booking as sent, provided no amenity contains a comma |
| ClientSearch.EncodeDecode | src/hooks/useSearch.ts:75-88 | decoding the encoded request gives exactly the criteria the client chose, up to the defaults, for comma-free amenity names |
| ClientSearch.RunSearch | src/hooks/useSearch.ts:67-109 | a search always ends with loading off; on success the results are the response data with no error; any failure clears the results and sets an error |
| ClientSearch.ClearResults | src/hooks/useSearch.ts:111-114 | clearing empties the results and the error and leaves loading alone |
| ClientSearch.ClearAfterSearch | src/hooks/useSearch.ts:63-114 | clearing after a finished search returns the hook to its initial state |
| SearchBar.UpdateGuestCount | src/components/SearchBar.tsx:112-117 | the chosen counter moves by delta but never below 0; every other counter and field is unchanged |
| SearchBar.UpdateKeepsCountsNonNegative | src/components/SearchBar.tsx:112-117 | counters never go negative |
| SearchBar.DecrementAtZero | src/components/SearchBar.tsx:112-117 | decrementing a counter at 0 changes nothing |
| SearchBar.IncrementThenDecrement | src/components/SearchBar.tsx:112-117 | a plus followed by a minus restores the parameters |
| SearchBar.GuestsLabel | src/components/SearchBar.tsx:105-110 | the label reads `Add guests` exactly when the total is 0, and `1 guest` exactly when it is 1 |
| SearchBar.ManyLabel | src/components/SearchBar.tsx:105-110 | a total other than 0 and 1 never renders as either fixed label |
| SearchBar.GuestsLabelDeterminesTotal | src/components/SearchBar.tsx:105-110 | for non-negative counters, equal labels mean equal totals |
| SearchBar.HandleSearch | src/components/SearchBar.tsx:151-170 | a search without destination, adults or children does nothing; otherwise it closes every dropdown and keeps the parameters, and it submits them exactly when an `onSearch` callback was given |
| SearchBar.InfantsAndPetsDoNotSearch | src/components/SearchBar.tsx:152-154 | infants and pets alone never start a search, with or without a callback |
| SearchBar.CloseAll | src/components/SearchBar.tsx:56-62 | closing leaves every dropdown closed and keeps the parameters |
| SearchBar.ClickOutside | src/components/SearchBar.tsx:56-62 | a click inside the bar changes nothing; a click outside closes every dropdown |
| SearchBar.ClickField | src/components/SearchBar.tsx:182-247 | clicking a field makes it active and opens exactly its own dropdown |
| SearchBar.HandleDestinationChange | src/components/SearchBar.tsx:69-72 | typing sets the destination and shows suggestions exactly when the text is non-empty |
| SearchBar.SelectDestination | src/components/SearchBar.tsx:74-80 | choosing a suggestion sets the destination, hides suggestions and moves on to the check-in date |
| SearchBar.HandleDateSelect | src/components/SearchBar.tsx:82-98 | a check-in date moves on to check-out; a check-out date closes the picker and moves on to guests |
| SearchBar.DateClickTarget | src/components/SearchBar.tsx:338 | a day click sets the check-in date exactly when check-in is the active field |
| SearchBar.ClickDay | src/components/SearchBar.tsx:338-339 | an empty cell or a day before now is disabled and changes nothing; any other day is selected |
| SearchBar.TodayNotSelectable | src/components/SearchBar.tsx:339 | a day whose midnight has passed cannot be selected, today included |
| SearchBar.DestinationThenTwoDays | src/components/SearchBar.tsx:74-98 | choosing a destination and then two future days fills check-in and check-out in order and opens the guest picker |
| SearchBar.GuestSelectionComplete | src/components/SearchBar.tsx:119-125 | finishing the guest choice closes the guest picker and clears the active field |
| SearchBar.FilterNames | src/components/SearchBar.tsx:269-273 | the suggestion filter keeps, in order, exactly the names matching the query |
| SearchBar.FilterNamesCounts | src/components/SearchBar.tsx:269-273 | each name occurs in the suggestions as often as in the list when it matches the query, and not at all otherwise |
| SearchBar.Suggestions | src/components/SearchBar.tsx:21-29 | the suggestions are exactly the built-in destinations matching the query, in list order |
| SearchBar.FilterEverything | src/components/SearchBar.tsx:269-273 | the empty query keeps every name |
| SearchBar.EmptyQuerySuggestsAll | src/components/SearchBar.tsx:269-273 | with no destination typed, all seven suggestions appear |
| SearchBar.DaysInMonth | src/components/SearchBar.tsx:129 | a month has 28 to 31 days, and February has 29 exactly in leap years |
| SearchBar.YearLength | src/components/SearchBar.tsx:129 | the twelve months add up to 366 days in leap years and 365 otherwise |
| SearchBar.NextMonth | src/components/SearchBar.tsx:357 | the next-month arrow advances exactly one month, across year ends |
| SearchBar.PrevMonth | src/components/SearchBar.tsx:315 | the previous-month arrow goes back exactly one month, across year ends |
| SearchBar.NextThenPrev | src/components/SearchBar.tsx:315-357 | the two month arrows undo each other |
| SearchBar.GenerateCalendar | src/components/SearchBar.tsx:127-144 | the grid holds one blank per weekday before the first, then the days 1 to n in order |
| Favorites.Toggle | src/components/PropertyGrid.tsx:10-18 | toggling flips exactly the given id |
| Favorites.ToggleTwice | src/components/SearchResults.tsx:33-43 | toggling twice restores the favourites |
| Favorites.ToggleCommutes | src/components/HomeCarousels.tsx:25-33 | toggles of two ids commute |
| Favorites.ToggleSize | src/components/PropertyGrid.tsx:10-18 | a toggle removes one favourite or adds one |
| PropertyGrid.NextImage | src/components/PropertyGrid.tsx:20-25 | the next image wraps from the last back to the first; other cards are untouched; with no images the remainder is NaN (shown as 0), a state the page never reaches because the arrows need two images (`PropertyGrid.ClicksKeepCardValid`) |
| PropertyGrid.PrevImage | src/components/PropertyGrid.tsx:27-32 | the previous image wraps from the first to the last; other cards are untouched; the NaN of a zero-image card is unreachable from the page, as for the next arrow |
| PropertyGrid.StepsStayInRange | src/components/PropertyGrid.tsx:20-32 | both arrows keep every index within the card's images |
| PropertyGrid.PrevUndoesNext | src/components/PropertyGrid.tsx:20-32 | the two arrows undo each other |
| PropertyGrid.NextTimesAdvances | src/components/PropertyGrid.tsx:20-25 | k next-clicks, k at most n, advance the index by k modulo n |
| PropertyGrid.FullCycle | src/components/PropertyGrid.tsx:20-25 | n next-clicks on a card with n images return to the starting image |
| PropertyGrid.ClickArrow | src/components/PropertyGrid.tsx:20-136 | a card with fewer than two images has no arrows, so a click changes nothing; otherwise the forward arrow wraps the last image to the first and the back arrow the first to the last, and other cards are untouched |
| PropertyGrid.ClicksKeepCardValid | src/components/PropertyGrid.tsx:20-136 | any sequence of arrow clicks keeps a card's stored index a real number within its images (0 when it has at most one) |
| PropertyGrid.SingleImageCardStays | src/components/PropertyGrid.tsx:112-136 | on a card with at most one image no sequence of clicks moves the index |
| PropertyGrid.JsRem | src/components/PropertyGrid.tsx:23 | `%` is the remainder of division truncated toward zero: the dividend is the image count times the truncated quotient plus the remainder, and the remainder takes the sign of the dividend and is smaller than the count |
| PropertyGrid.DistanceKm | src/components/PropertyGrid.tsx:39 | sample distances lie between 5 and 34 km |
| PropertyGrid.SampleProperties | src/components/PropertyGrid.tsx:37-62 | twenty samples; sample i has id `grid-property-i`, price 50 + (7i mod 200) (so 50 to 249), location Dhaka, Bangladesh and two images, and is a guest favourite exactly when i is not a multiple of 3 |
| PropertyGrid.SampleIdsDistinct | src/components/PropertyGrid.tsx:46 | distinct indices give distinct ids |
| PropertyGrid.SampleIdsUnique | src/components/PropertyGrid.tsx:37-62 | no two samples share an id |
| PropertyGrid.FavoritesPerBlock | src/components/PropertyGrid.tsx:42 | every three consecutive indices hold two favourites |
| PropertyGrid.CountFavoritesPrefix | src/components/PropertyGrid.tsx:37-62 | the favourites among the first k samples are the non-multiples of 3 below k |
| PropertyGrid.ThirteenFavorites | src/components/PropertyGrid.tsx:37-62 | thirteen of the twenty samples are guest favourites |
| SearchResults.SelectView | src/components/SearchResults.tsx:45-140 | loading shows the spinner; otherwise a non-empty error shows the error panel with that message; otherwise no results shows the no-results panel, whose message quotes the query when there is one; otherwise the grid, with the noun `stay` exactly for one result, ` in <query>` after the count exactly when there is a query, and a show-more button exactly from twenty results |
| SearchResults.NoResultsQuotesQuery | src/components/SearchResults.tsx:84-87 | with a non-empty query the no-results message contains the query |
| SearchResults.FailureViews | src/components/SearchResults.tsx:58-102 | a failed search shows its message in the error panel, except that an empty message shows the no-results panel |
| SearchResults.SuccessView | src/components/SearchResults.tsx:104-140 | a successful non-empty search shows the grid with the result count, and a show-more button exactly from twenty results |
| SearchResults.CardNext | src/components/SearchResults.tsx:156-161 | from an image of the card the next arrow stays within the images; it goes to the following image, and from the last one back to 0 |
| SearchResults.CardPrev | src/components/SearchResults.tsx:163-168 | from an image of the card the previous arrow stays within the images; it goes to the preceding image, and from 0 to the last one |
| SearchResults.CardPrevUndoesNext | src/components/SearchResults.tsx:156-168 | the card's two arrows undo each other |
| SearchResults.CardAgreesWithGrid | src/components/SearchResults.tsx:156-168 | the card's comparison-based wrap agrees with the grid's modulo-based wrap |
| SearchResults.CardClick | src/components/SearchResults.tsx:156-201 | below two images there are no arrows and the index stays; otherwise forward wraps the last image to 0, back wraps 0 to the last, and an index within the images stays within them |
| SearchResults.ClicksStayOnImages | src/components/SearchResults.tsx:156-201 | from a valid index, any sequence of clicks keeps the card on one of its images (on the first when it has at most one) |
| SearchResults.CardImage | src/components/SearchResults.tsx:175 | the card shows the current image when it exists and is non-empty, and the placeholder in every other case, including a card without images |
| SearchResults.NoImagesShowPlaceholder | src/components/SearchResults.tsx:156-201 | a card without images renders no arrows, so any clicks leave its index at 0, and it shows the placeholder |
| HomeCarousels.Target | src/components/HomeCarousels.tsx:39-43 | scrolling left moves 300 pixels back, stopping at 0; scrolling right moves 300 pixels forward |
| HomeCarousels.ScrollCarousel | src/components/HomeCarousels.tsx:36-54 | without a mounted carousel nothing changes; otherwise only that section's position becomes the target |
| HomeCarousels.ScrollKeepsNonNegative | src/components/HomeCarousels.tsx:36-54 | scroll positions never go negative |
| HomeCarousels.ClicksKeepNonNegative | src/components/HomeCarousels.tsx:36-54 | any sequence of arrow clicks keeps every position non-negative |
| HomeCarousels.LeftUndoesRight | src/components/HomeCarousels.tsx:41-43 | left after right restores the position; right after left restores it too, unless left stopped at 0 |

## Left out

- The store is a sequence of documents, and the MongoDB driver is not modelled. Connection, `lean` and `_id` rendering are left out, and so are the error responses that come from exceptions: the 500 from the search GET and POST, and the store failures of the apartments endpoint other than the `skip`/`limit` window and the cast of a `NaN` bound (`Apartments.CastFails`).
- `$regex` patterns are read as literal text. A destination, city, country or type that contains regular-expression metacharacters is matched as a substring and is not compiled as a pattern.
- Lower-casing folds ASCII letters only, not the full Unicode case mapping of `toLowerCase`.
- `URLSearchParams` percent-encoding is abstracted. Parameters are a map from decoded names to decoded values.
- Numbers.ParseInt: `0x` prefixes and radix handling are not modelled. Numbers.ParseFloat: exponents and `Infinity` are not modelled.
- The apartments sort over an arbitrary field is not computed. The listings come in already sorted (`ordered`), and the sort specification is only reported.
- Apartments.Window: a NaN limit or skip is assumed to be rejected by the store. The driver's real behaviour for such values is not modelled.
- FilterOptions.FilterOptionsFor: `distinct` returns values in first-seen store order here. The store makes no order promise, so the model picks one particular answer.
- FilterOptions.FilterOptionsFor: the body's `type` is taken to be a string. A non-string value follows the default branch, which is the same 400 answer.
- Prices and ratings are exact reals. Floating-point rounding in the average price and in parsing is not modelled.
- Calendar days are abstracted: a date is a day number (`SearchBar.DayNumber`), and `new Date()` is the parameter `now`. The ISO text the client sends for dates is not modelled, because the server reads the dates and then never uses them (`Search.DatesIgnored`).
- SearchBar.GenerateCalendar: the weekday of the first of the month and the month's length are parameters. The date arithmetic that produces them is only captured by `SearchBar.DaysInMonth`.
- ClientSearch.EncodeDecode: client prices are whole numbers. A fractional price has the same round trip only up to `toString` of a float, which is not modelled.
- ClientSearch.EncodeDecode: amenity names that contain a comma do not round-trip. The server splits them apart, so the lemma requires comma-free names.
- The response echo of the apartments endpoint (`filters`) and the search echo's nesting into `guests`/`priceRange` are not modelled. `Search.HandleSearch` echoes the decoded criteria as one record.
- PropertyGrid.SampleProperties: the sample rating is floating-point arithmetic rounded to two decimals, so it is omitted. The sample image URLs are not modelled either; each sample only records that it has two images.
- React rendering, styling, event objects, `preventDefault`, smooth scrolling and the DOM are left out. The home carousels' `ref.current.scrollTo` is modelled only as the `mounted` flag.
- Listings.Create: mongoose casting of wrongly typed values (a string price, say) is not modelled. A draft field is either absent or of the schema's type.

Three behaviours of the code are easy to miss. The model follows the code:

- The image list may be empty: the schema requires each element, not a
  non-empty array.
- `reviews`, `type` and `instantBook` are not schema paths. Strict mode
  drops them when a listing is saved, so the search filters on property type
  and instant booking never match a listing saved through the schema
  (`Search.CreatedListingsLackTypeAndInstant`).
- The date parameters of the search endpoint are checked but add no filter.
