/** The favourite hearts shared by the grid, the result cards and the home
    carousels: a set of listing ids with one toggle operation. */
module Favorites {
  /** `toggleFavorite(id)`: removes `id` when present, adds it otherwise. */
  function Toggle(favorites: set<string>, id: string): (r: set<string>)
    ensures id in r <==> id !in favorites
    ensures forall other :: other != id ==> (other in r <==> other in favorites)
  {
    if id in favorites then favorites - {id} else favorites + {id}
  }

  /** Toggling the same heart twice restores the set. */
  lemma ToggleTwice(favorites: set<string>, id: string)
    ensures Toggle(Toggle(favorites, id), id) == favorites
  {
  }

  /** Toggles of two different hearts commute. */
  lemma ToggleCommutes(favorites: set<string>, a: string, b: string)
    ensures Toggle(Toggle(favorites, a), b) == Toggle(Toggle(favorites, b), a)
  {
  }

  /** A toggle changes the number of favourites by exactly one. */
  lemma ToggleSize(favorites: set<string>, id: string)
    ensures |Toggle(favorites, id)| == if id in favorites then |favorites| - 1 else |favorites| + 1
  {
  }
}
