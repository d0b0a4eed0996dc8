/**
 * The search results panel: which of its four views it shows, the grid
 * heading and "Show more" button, and each result card's image carousel.
 */
module SearchResults {
  import opened Options
  import opened Strings
  import opened Params
  import ClientSearch
  import PropertyGrid
  import Ranking

  const ShowMoreThreshold: nat := 20

  const PlaceholderImage: string := "/placeholder-image.jpg"

  /** The four renderings, in the order the component tries them. */
  datatype View =
    | Spinner
    | ErrorPanel(message: string)
    | NoResults(message: string)
    | Grid(count: nat, noun: string, place: string, showMore: bool)

  function NoResultsMessage(searchQuery: Option<string>): string {
    if Truthy(searchQuery) then
      "We couldn't find any places matching \"" + searchQuery.value + "\". Try adjusting your search criteria."
    else "Try adjusting your search criteria to find more places to stay."
  }

  /** The view for the hook's state: loading first, then a truthy error,
      then an empty list, then the grid. */
  function SelectView(loading: bool, error: Option<string>, count: nat, searchQuery: Option<string>): (r: View)
    ensures r.Spinner? <==> loading
    ensures r.ErrorPanel? <==> !loading && Truthy(error)
    ensures r.NoResults? <==> !loading && !Truthy(error) && count == 0
    ensures r.Grid? <==> !loading && !Truthy(error) && count > 0
    ensures r.ErrorPanel? ==> r.message == error.value
    ensures r.NoResults? ==> r.message == NoResultsMessage(searchQuery)
    ensures r.Grid? ==> r.place == if Truthy(searchQuery) then " in " + searchQuery.value else ""
    ensures r.Grid? ==> r.count == count && (r.showMore <==> count >= ShowMoreThreshold)
    ensures r.Grid? ==> (r.noun == "stay" <==> count == 1)
  {
    if loading then Spinner
    else if Truthy(error) then ErrorPanel(error.value)
    else if count == 0 then NoResults(NoResultsMessage(searchQuery))
    else Grid(count, if count == 1 then "stay" else "stays",
              if Truthy(searchQuery) then " in " + searchQuery.value else "",
              count >= ShowMoreThreshold)
  }

  /** The no-results panel quotes a non-empty query back to the user. */
  lemma NoResultsQuotesQuery(q: Option<string>)
    requires Truthy(q)
    ensures Contains(NoResultsMessage(q), q.value)
  {
    var lead := "We couldn't find any places matching \"";
    var m := NoResultsMessage(q);
    assert m == lead + q.value + "\". Try adjusting your search criteria.";
    assert m[|lead|..|lead| + |q.value|] == q.value;
    assert OccursAt(m, q.value, |lead|);
  }

  /** The heading text: "`n` stay(s)", then " in `query`" when there is one. */
  function Heading(v: View): string
    requires v.Grid?
  {
    IntToString(v.count) + " " + v.noun + v.place
  }

  function ViewOf(s: ClientSearch.SearchState, searchQuery: Option<string>): View {
    SelectView(s.loading, s.error, |s.results|, searchQuery)
  }

  /** After a search ends, a failure shows the error panel when its message
      is non-empty, and otherwise the "No results" panel: the hook stores a
      failure's message even when it is `''`, and `''` is falsy. */
  lemma FailureViews(s: ClientSearch.SearchState, o: ClientSearch.Outcome, q: Option<string>)
    requires ClientSearch.Failed(o)
    ensures var v := ViewOf(ClientSearch.RunSearch(s, o), q);
      (ClientSearch.FailureMessage(o) != "" ==> v == ErrorPanel(ClientSearch.FailureMessage(o)))
      && (ClientSearch.FailureMessage(o) == "" ==> v == NoResults(NoResultsMessage(q)))
  {
  }

  /** A successful search with results shows the grid with their count. */
  lemma SuccessView(s: ClientSearch.SearchState, data: seq<Ranking.Scored>, q: Option<string>)
    requires |data| > 0
    ensures var v := ViewOf(ClientSearch.RunSearch(s, ClientSearch.Answered(true, data)), q);
      v.Grid? && v.count == |data| && (v.showMore <==> |data| >= 20)
  {
  }

  // ---------------------------------------------------------------------
  // Result card carousel

  /** `nextImage` on a card: the last image wraps to the first. */
  function CardNext(i: int, imageCount: int): (r: int)
    ensures 0 <= i < imageCount ==> 0 <= r < imageCount
    ensures i != imageCount - 1 ==> r == i + 1
    ensures i == imageCount - 1 ==> r == 0
  {
    if i == imageCount - 1 then 0 else i + 1
  }

  /** `prevImage` on a card: the first image wraps to the last. */
  function CardPrev(i: int, imageCount: int): (r: int)
    ensures 0 <= i < imageCount ==> 0 <= r < imageCount
    ensures i != 0 ==> r == i - 1
    ensures i == 0 ==> r == imageCount - 1
  {
    if i == 0 then imageCount - 1 else i - 1
  }

  lemma CardPrevUndoesNext(i: int, imageCount: int)
    requires 0 <= i < imageCount
    ensures CardPrev(CardNext(i, imageCount), imageCount) == i
    ensures CardNext(CardPrev(i, imageCount), imageCount) == i
  {
  }

  /** The card's comparisons and the grid's remainder arithmetic move
      through the images identically. */
  lemma CardAgreesWithGrid(m: PropertyGrid.Positions, id: string, n: nat)
    requires n >= 1 && 0 <= PropertyGrid.Shown(m, id) < n
    ensures var c := PropertyGrid.Shown(m, id);
      PropertyGrid.Shown(PropertyGrid.NextImage(m, id, n), id) == CardNext(c, n)
      && PropertyGrid.Shown(PropertyGrid.PrevImage(m, id, n), id) == CardPrev(c, n)
  {
  }

  /** `property.images[currentImageIndex] || '/placeholder-image.jpg'`. */
  function CardImage(images: seq<string>, i: int): (r: string)
    ensures 0 <= i < |images| && images[i] != "" ==> r == images[i]
    ensures !(0 <= i < |images| && images[i] != "") ==> r == PlaceholderImage
  {
    if 0 <= i < |images| && images[i] != "" then images[i] else PlaceholderImage
  }

  /** A click on a card's arrow; the arrows exist only from two images on. */
  function CardClick(i: int, imageCount: nat, a: PropertyGrid.Arrow): (r: int)
    ensures !PropertyGrid.ArrowsShown(imageCount) ==> r == i
    ensures PropertyGrid.ArrowsShown(imageCount) && 0 <= i < imageCount ==> 0 <= r < imageCount
    ensures PropertyGrid.ArrowsShown(imageCount) && a == PropertyGrid.Forward ==>
      r == (if i == imageCount - 1 then 0 else i + 1)
    ensures PropertyGrid.ArrowsShown(imageCount) && a == PropertyGrid.Back ==>
      r == (if i == 0 then imageCount - 1 else i - 1)
  {
    if !PropertyGrid.ArrowsShown(imageCount) then i
    else if a == PropertyGrid.Forward then CardNext(i, imageCount)
    else CardPrev(i, imageCount)
  }

  function CardClicks(i: int, imageCount: nat, arrows: seq<PropertyGrid.Arrow>): int
    decreases |arrows|
  {
    if |arrows| == 0 then i else CardClicks(CardClick(i, imageCount, arrows[0]), imageCount, arrows[1..])
  }

  /** From the first image, any clicks keep the card on one of its images
      (on the first when it has at most one). */
  lemma {:induction false} ClicksStayOnImages(i: int, imageCount: nat, arrows: seq<PropertyGrid.Arrow>)
    requires 0 <= i && (i < imageCount || i == 0)
    ensures var j := CardClicks(i, imageCount, arrows); 0 <= j && (j < imageCount || j == 0)
    decreases |arrows|
  {
    if |arrows| > 0 {
      ClicksStayOnImages(CardClick(i, imageCount, arrows[0]), imageCount, arrows[1..]);
    }
  }

  /** A card without images has no arrows: it stays at index 0, and shows the
      placeholder whatever is clicked. */
  lemma {:induction false} NoImagesShowPlaceholder(arrows: seq<PropertyGrid.Arrow>)
    ensures CardClicks(0, 0, arrows) == 0
    ensures CardImage([], CardClicks(0, 0, arrows)) == PlaceholderImage
    decreases |arrows|
  {
    if |arrows| > 0 {
      NoImagesShowPlaceholder(arrows[1..]);
    }
  }
}
