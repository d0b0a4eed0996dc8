/**
 * Ordering of scored search candidates: the results are sorted by
 * descending score with a stable sort, so candidates with equal scores keep
 * the order in which the store returned them.
 */
module Ranking {
  import opened Listings

  /** A candidate with its relevance score. */
  datatype Scored = Scored(listing: Listing, score: int)

  predicate NonIncreasing(xs: seq<Scored>) {
    forall i, j :: 0 <= i < j < |xs| ==> xs[i].score >= xs[j].score
  }

  /** The entries of `xs` whose score is `s`, in their order in `xs`. */
  function WithScore(xs: seq<Scored>, s: int): (r: seq<Scored>)
    ensures |r| <= |xs|
  {
    if |xs| == 0 then []
    else if xs[0].score == s then [xs[0]] + WithScore(xs[1..], s)
    else WithScore(xs[1..], s)
  }

  /** Places `x` in front of the first entry that does not outscore it. */
  function Insert(x: Scored, xs: seq<Scored>): seq<Scored> {
    if |xs| == 0 || xs[0].score <= x.score then [x] + xs
    else [xs[0]] + Insert(x, xs[1..])
  }

  lemma {:induction false} InsertPermutes(x: Scored, xs: seq<Scored>)
    ensures multiset(Insert(x, xs)) == multiset([x] + xs)
    ensures |Insert(x, xs)| == |xs| + 1
  {
    if |xs| > 0 && xs[0].score > x.score {
      InsertPermutes(x, xs[1..]);
      assert [xs[0]] + xs[1..] == xs;
      calc {
        multiset(Insert(x, xs));
        multiset([xs[0]]) + multiset(Insert(x, xs[1..]));
        multiset([xs[0]]) + multiset([x] + xs[1..]);
        multiset([x] + xs);
      }
    }
  }

  lemma {:induction false} InsertKeepsOrder(x: Scored, xs: seq<Scored>)
    requires NonIncreasing(xs)
    ensures NonIncreasing(Insert(x, xs))
  {
    if |xs| > 0 && xs[0].score > x.score {
      var rest := Insert(x, xs[1..]);
      InsertKeepsOrder(x, xs[1..]);
      InsertPermutes(x, xs[1..]);
      forall j | 0 <= j < |rest|
        ensures xs[0].score >= rest[j].score
      {
        assert rest[j] in multiset([x] + xs[1..]);
        assert rest[j] == x || rest[j] in xs[1..];
      }
    }
  }

  lemma {:induction false} InsertKeepsTies(x: Scored, xs: seq<Scored>, s: int)
    requires NonIncreasing(xs)
    ensures WithScore(Insert(x, xs), s)
         == (if x.score == s then [x] else []) + WithScore(xs, s)
  {
    if |xs| == 0 || xs[0].score <= x.score {
      if x.score != s {
        assert WithScore(Insert(x, xs), s) == WithScore(xs, s) by {
          assert Insert(x, xs)[1..] == xs;
        }
      } else {
        assert Insert(x, xs)[1..] == xs;
      }
    } else {
      InsertKeepsTies(x, xs[1..], s);
      var ins := Insert(x, xs);
      assert ins[1..] == Insert(x, xs[1..]);
      if x.score == s {
        // Every entry of xs ahead of x outscores it, so none of them has score s.
        assert xs[0].score != s;
      }
    }
  }

  /** The candidates ordered by descending score; a permutation that keeps
      the original order among equal scores. */
  function SortByScore(xs: seq<Scored>): (r: seq<Scored>)
    ensures |r| == |xs|
    ensures multiset(r) == multiset(xs)
    ensures NonIncreasing(r)
    ensures forall s :: WithScore(r, s) == WithScore(xs, s)
  {
    if |xs| == 0 then []
    else
      var rest := SortByScore(xs[1..]);
      InsertKeepsOrder(xs[0], rest);
      InsertPermutes(xs[0], rest);
      forall s ensures WithScore(Insert(xs[0], rest), s) == WithScore(xs, s) {
        InsertKeepsTies(xs[0], rest, s);
      }
      assert [xs[0]] + xs[1..] == xs;
      Insert(xs[0], rest)
  }
}
