/**
 * The home page's horizontal carousels: one scroll offset per section,
 * moved 300 pixels per arrow click and never left of 0.
 */
module HomeCarousels {
  const ScrollAmount: int := 300

  datatype Direction = Left | Right

  type ScrollPositions = map<string, int>

  /** `scrollPositions[sectionId] || 0`. */
  function Current(m: ScrollPositions, section: string): int {
    if section in m then m[section] else 0
  }

  /** The offset an arrow click moves to. */
  function Target(current: int, d: Direction): (r: int)
    ensures d == Left ==> r >= 0 && (current >= ScrollAmount ==> r == current - ScrollAmount)
    ensures d == Left && current <= ScrollAmount ==> r == 0
    ensures d == Right ==> r == current + ScrollAmount
  {
    match d
    case Left => if current - ScrollAmount > 0 then current - ScrollAmount else 0
    case Right => current + ScrollAmount
  }

  /** `scrollCarousel(ref, direction, sectionId)`: without a mounted element
      nothing changes; otherwise only `sectionId`'s offset is replaced. */
  function ScrollCarousel(m: ScrollPositions, mounted: bool, d: Direction, section: string): (r: ScrollPositions)
    ensures !mounted ==> r == m
    ensures mounted ==> section in r && r[section] == Target(Current(m, section), d)
    ensures forall other :: other != section ==> (other in r <==> other in m)
    ensures forall other :: other != section && other in m ==> r[other] == m[other]
  {
    if !mounted then m else m[section := Target(Current(m, section), d)]
  }

  predicate NonNegative(m: ScrollPositions) {
    forall s :: s in m ==> m[s] >= 0
  }

  /** Starting from `{}`, every stored offset stays at or right of 0. */
  lemma ScrollKeepsNonNegative(m: ScrollPositions, mounted: bool, d: Direction, section: string)
    requires NonNegative(m)
    ensures NonNegative(ScrollCarousel(m, mounted, d, section))
  {
  }

  /** A sequence of arrow clicks on mounted sections. */
  function ScrollAll(m: ScrollPositions, clicks: seq<(Direction, string)>): ScrollPositions
    decreases |clicks|
  {
    if |clicks| == 0 then m
    else ScrollAll(ScrollCarousel(m, true, clicks[0].0, clicks[0].1), clicks[1..])
  }

  lemma {:induction false} ClicksKeepNonNegative(m: ScrollPositions, clicks: seq<(Direction, string)>)
    requires NonNegative(m)
    ensures NonNegative(ScrollAll(m, clicks))
    decreases |clicks|
  {
    if |clicks| > 0 {
      ScrollKeepsNonNegative(m, true, clicks[0].0, clicks[0].1);
      ClicksKeepNonNegative(ScrollCarousel(m, true, clicks[0].0, clicks[0].1), clicks[1..]);
    }
  }

  /** Left after right returns to the same offset; right after left does so
      only when there were at least 300 pixels to go back. */
  lemma LeftUndoesRight(current: int)
    requires current >= 0
    ensures Target(Target(current, Right), Left) == current
    ensures current >= ScrollAmount ==> Target(Target(current, Left), Right) == current
    ensures current < ScrollAmount ==> Target(Target(current, Left), Right) == ScrollAmount
  {
  }
}
