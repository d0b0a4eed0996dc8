/**
 * The home page grid: per-listing image carousels kept in one index map,
 * and the twenty deterministic sample listings it renders.
 */
module PropertyGrid {
  import opened Strings

  /** A stored carousel index: JavaScript's `%` by a zero image count stores
      `NaN`, which later reads as 0 through `|| 0`. */
  datatype Slot = Index(i: int) | NotANumber

  type Positions = map<string, Slot>

  /** `currentImageIndex[id] || 0`: a missing entry, `NaN` and 0 all read
      as 0. */
  function Shown(m: Positions, id: string): int {
    if id in m && m[id].Index? then m[id].i else 0
  }

  /** The quotient JavaScript's `%` divides by: `a / n` truncated toward
      zero. */
  function JsQuot(a: int, n: nat): int
    requires n > 0
  {
    if a >= 0 then a / n else -((-a) / n)
  }

  /** JavaScript's `%` by an image count: truncated division, so the
      remainder takes the sign of the dividend. */
  function JsRem(a: int, n: nat): (r: int)
    requires n > 0
    ensures a >= 0 ==> 0 <= r < n
    ensures a < 0 ==> -(n as int) < r <= 0
    ensures a == n * JsQuot(a, n) + r
  {
    if a >= 0 then a % n
    else
      var k := (-a) / n;
      assert n * (-k) == -(n * k);
      -((-a) % n)
  }

  function Step(cur: int, n: nat): Slot {
    if n == 0 then NotANumber else Index(JsRem(cur, n))
  }

  /** `nextImage(id, n)`: stores `(shown + 1) % n` under `id`. */
  function NextImage(m: Positions, id: string, n: nat): (r: Positions)
    ensures id in r && forall other :: other != id ==> (other in r <==> other in m)
    ensures forall other :: other != id && other in m ==> r[other] == m[other]
    ensures n == 0 ==> r[id] == NotANumber && Shown(r, id) == 0
    ensures n >= 1 && 0 <= Shown(m, id) < n ==>
      Shown(r, id) == if Shown(m, id) == n - 1 then 0 else Shown(m, id) + 1
  {
    WrapForward(Shown(m, id), n);
    m[id := Step(Shown(m, id) + 1, n)]
  }

  /** `prevImage(id, n)`: stores `(shown - 1 + n) % n` under `id`. */
  function PrevImage(m: Positions, id: string, n: nat): (r: Positions)
    ensures id in r && forall other :: other != id ==> (other in r <==> other in m)
    ensures forall other :: other != id && other in m ==> r[other] == m[other]
    ensures n == 0 ==> r[id] == NotANumber && Shown(r, id) == 0
    ensures n >= 1 && 0 <= Shown(m, id) < n ==>
      Shown(r, id) == if Shown(m, id) == 0 then n - 1 else Shown(m, id) - 1
  {
    WrapBackward(Shown(m, id), n);
    m[id := Step(Shown(m, id) - 1 + n, n)]
  }

  /** On a valid index, `(c + 1) % n` wraps the last image to the first. */
  lemma WrapForward(c: int, n: int)
    ensures n >= 1 && 0 <= c < n ==> (c + 1) % n == if c == n - 1 then 0 else c + 1
  {
    if n >= 1 && 0 <= c < n {
      if c == n - 1 { ModWrap(c + 1, n); } else { ModBelow(c + 1, n); }
    }
  }

  /** On a valid index, `(c - 1 + n) % n` wraps the first image to the last. */
  lemma WrapBackward(c: int, n: int)
    ensures n >= 1 && 0 <= c < n ==> (c - 1 + n) % n == if c == 0 then n - 1 else c - 1
  {
    if n >= 1 && 0 <= c < n {
      if c == 0 { ModBelow(c - 1 + n, n); } else { ModWrap(c - 1 + n, n); }
    }
  }

  lemma ModBelow(a: int, n: int)
    requires 0 <= a < n
    ensures a % n == a
  {
  }

  lemma ModWrap(a: int, n: int)
    requires n <= a < 2 * n
    ensures a % n == a - n
  {
  }

  /** Every stored index points at one of `n` images. */
  predicate InRange(m: Positions, n: nat) {
    forall id :: id in m ==> m[id].Index? && 0 <= m[id].i < n
  }

  /** Starting from `{}`, the grid's indices stay within the image list. */
  lemma StepsStayInRange(m: Positions, id: string, n: nat)
    requires n >= 1 && InRange(m, n)
    ensures InRange(NextImage(m, id, n), n)
    ensures InRange(PrevImage(m, id, n), n)
  {
  }

  /** Back after forward, and forward after back, show the same image. */
  lemma PrevUndoesNext(m: Positions, id: string, n: nat)
    requires n >= 1 && 0 <= Shown(m, id) < n
    ensures Shown(PrevImage(NextImage(m, id, n), id, n), id) == Shown(m, id)
    ensures Shown(NextImage(PrevImage(m, id, n), id, n), id) == Shown(m, id)
  {
  }

  /** `k` presses of the forward arrow. */
  function NextTimes(m: Positions, id: string, n: nat, k: nat): Positions {
    if k == 0 then m else NextImage(NextTimes(m, id, n, k - 1), id, n)
  }

  /** Up to `n` forward presses advance the index by `k`, wrapping once. */
  lemma {:induction false} NextTimesAdvances(m: Positions, id: string, n: nat, k: nat)
    requires n >= 1 && 0 <= Shown(m, id) < n && k <= n
    ensures var c := Shown(m, id);
      Shown(NextTimes(m, id, n, k), id) == if c + k < n then c + k else c + k - n
  {
    if k > 0 {
      NextTimesAdvances(m, id, n, k - 1);
    }
  }

  /** `n` forward presses on an `n`-image carousel come back to the start. */
  lemma FullCycle(m: Positions, id: string, n: nat)
    requires n >= 1 && 0 <= Shown(m, id) < n
    ensures Shown(NextTimes(m, id, n, n), id) == Shown(m, id)
  {
    NextTimesAdvances(m, id, n, n);
  }

  // ---------------------------------------------------------------------
  // Arrow clicks

  datatype Arrow = Back | Forward

  /** The arrows are rendered only for a listing with more than one image. */
  predicate ArrowsShown(n: nat) {
    n > 1
  }

  /** A click on one of a card's arrows. Below two images there is no arrow
      to click, so the handlers never run there. */
  function ClickArrow(m: Positions, id: string, n: nat, a: Arrow): (r: Positions)
    ensures !ArrowsShown(n) ==> r == m
    ensures forall other :: other != id ==> (other in r <==> other in m)
    ensures forall other :: other != id && other in m ==> r[other] == m[other]
    ensures ArrowsShown(n) && 0 <= Shown(m, id) < n ==>
      && id in r && r[id].Index?
      && Shown(r, id) == match a
           case Forward => (if Shown(m, id) == n - 1 then 0 else Shown(m, id) + 1)
           case Back => (if Shown(m, id) == 0 then n - 1 else Shown(m, id) - 1)
  {
    if !ArrowsShown(n) then m
    else if a == Forward then NextImage(m, id, n)
    else PrevImage(m, id, n)
  }

  function ClickAll(m: Positions, id: string, n: nat, arrows: seq<Arrow>): Positions
    decreases |arrows|
  {
    if |arrows| == 0 then m else ClickAll(ClickArrow(m, id, n, arrows[0]), id, n, arrows[1..])
  }

  /** A card's stored entry is a real index into its images (or, for a card
      with at most one image, the first one). */
  predicate CardValid(m: Positions, id: string, n: nat) {
    && (id in m ==> m[id].Index?)
    && 0 <= Shown(m, id) && (Shown(m, id) < n || Shown(m, id) == 0)
  }

  /** However the arrows are clicked, a card never stores `NaN` and never
      points outside its images: the zero-image remainder cannot be reached
      from the page. */
  lemma {:induction false} ClicksKeepCardValid(m: Positions, id: string, n: nat, arrows: seq<Arrow>)
    requires CardValid(m, id, n)
    ensures CardValid(ClickAll(m, id, n, arrows), id, n)
    decreases |arrows|
  {
    if |arrows| > 0 {
      ClicksKeepCardValid(ClickArrow(m, id, n, arrows[0]), id, n, arrows[1..]);
    }
  }

  /** A card with at most one image has no arrows, so it stays where it is. */
  lemma {:induction false} SingleImageCardStays(m: Positions, id: string, n: nat, arrows: seq<Arrow>)
    requires !ArrowsShown(n)
    ensures ClickAll(m, id, n, arrows) == m
    decreases |arrows|
  {
    if |arrows| > 0 {
      SingleImageCardStays(m, id, n, arrows[1..]);
    }
  }

  // ---------------------------------------------------------------------
  // Sample listings

  const SampleCount: nat := 20

  /** A sample listing as the grid renders it; `imageCount` stands for its
      two identical photo URLs and `rating` is left out (floating point). */
  datatype Sample = Sample(
    id: string,
    title: string,
    location: string,
    distance: string,
    dates: string,
    price: int,
    imageCount: nat,
    isGuestFavorite: bool)

  function SampleTitle(i: nat): string {
    if i % 5 == 0 then "Apartment in Dhaka"
    else if i % 5 == 1 then "Room in Dhaka"
    else if i % 5 == 2 then "Apartment in Gulasana Thana"
    else if i % 5 == 3 then "Apartment in Moham'madapura Thana"
    else "Home in Dhaka"
  }

  /** `Math.floor(5 + (i * 1.5) % 30)` in whole numbers: `(i * 1.5) % 30`
      is `((3 * i) % 60) / 2` exactly. */
  function DistanceKm(i: nat): (r: int)
    ensures 5 <= r <= 34
  {
    5 + ((3 * i) % 60) / 2
  }

  function SampleId(i: nat): string {
    "grid-property-" + IntToString(i)
  }

  function MakeSample(i: nat): Sample {
    Sample(
      id := SampleId(i),
      title := SampleTitle(i),
      location := "Dhaka, Bangladesh",
      distance := IntToString(DistanceKm(i)) + " kilometers away",
      dates := "Oct 15–20",
      price := 50 + (i * 7) % 200,
      imageCount := 2,
      isGuestFavorite := i % 3 != 0)
  }

  /** `sampleProperties`. */
  function SampleProperties(): (r: seq<Sample>)
    ensures |r| == SampleCount
    ensures forall i :: 0 <= i < |r| ==> 50 <= r[i].price <= 249
    ensures forall i :: 0 <= i < |r| ==> r[i].price == 50 + (7 * i) % 200 && r[i].id == SampleId(i)
    ensures forall i :: 0 <= i < |r| ==> r[i].imageCount == 2 && r[i].location == "Dhaka, Bangladesh"
    ensures forall i :: 0 <= i < |r| ==> (r[i].isGuestFavorite <==> i % 3 != 0)
  {
    seq(SampleCount, i requires 0 <= i => MakeSample(i))
  }

  /** Different positions carry different ids, so React keys and the index
      map entries never collide. */
  lemma SampleIdsDistinct(i: nat, j: nat)
    requires i != j
    ensures SampleId(i) != SampleId(j)
  {
    var p := "grid-property-";
    if SampleId(i) == SampleId(j) {
      var a, b := NatToString(i), NatToString(j);
      assert a == (p + a)[|p|..] == (p + b)[|p|..] == b;
      NatToStringInjective(i, j);
    }
  }

  lemma SampleIdsUnique()
    ensures var s := SampleProperties();
      forall i, j :: 0 <= i < j < |s| ==> s[i].id != s[j].id
  {
    var s := SampleProperties();
    forall i, j | 0 <= i < j < |s|
      ensures s[i].id != s[j].id
    {
      SampleIdsDistinct(i, j);
    }
  }

  function CountFavorites(s: seq<Sample>): nat {
    if |s| == 0 then 0 else (if s[|s| - 1].isGuestFavorite then 1 else 0) + CountFavorites(s[..|s| - 1])
  }

  /** How many of the first `k` positions are not multiples of 3. */
  function FavoritesBelow(k: nat): nat {
    if k == 0 then 0 else (if (k - 1) % 3 != 0 then 1 else 0) + FavoritesBelow(k - 1)
  }

  /** Each block of three positions holds two favourites. */
  lemma {:induction false} FavoritesPerBlock(q: nat)
    ensures FavoritesBelow(3 * q) == 2 * q
  {
    if q > 0 {
      FavoritesPerBlock(q - 1);
      var b := 3 * (q - 1);
      assert b % 3 == 0 && (b + 1) % 3 == 1 && (b + 2) % 3 == 2;
      assert FavoritesBelow(b + 1) == FavoritesBelow(b);
      assert FavoritesBelow(b + 2) == FavoritesBelow(b) + 1;
      assert FavoritesBelow(b + 3) == FavoritesBelow(b) + 2;
      assert 3 * q == b + 3;
    }
  }

  lemma {:induction false} CountFavoritesPrefix(k: nat)
    requires k <= SampleCount
    ensures CountFavorites(SampleProperties()[..k]) == FavoritesBelow(k)
  {
    if k > 0 {
      CountFavoritesPrefix(k - 1);
      var s := SampleProperties();
      assert s[..k][..k - 1] == s[..k - 1];
    }
  }

  /** Thirteen of the twenty carry the guest-favourite badge. */
  lemma ThirteenFavorites()
    ensures CountFavorites(SampleProperties()) == 13
  {
    CountFavoritesPrefix(SampleCount);
    assert SampleProperties()[..SampleCount] == SampleProperties();
    FavoritesPerBlock(6);
    assert FavoritesBelow(20) == FavoritesBelow(18) + 1;
  }
}
