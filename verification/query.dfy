/**
 * The document filters both endpoints build, as data, and an in-memory
 * evaluator for them. A filter is a conjunction of field clauses plus at
 * most one `$or` group; each clause is one of the operator shapes the
 * endpoints emit.
 */
module Queries {
  import opened Options
  import opened Strings
  import opened Numbers
  import opened Listings
  import opened Sequences

  datatype TextField = Title | Location | Description | City | Country | PropertyType
  datatype NumField = Price | Rating | MaxGuests | Bedrooms | Bathrooms
  datatype BoolField = GuestFavorite | InstantBook

  datatype Clause =
      /** `{ field: { $regex: pattern, $options: 'i' } }`, read as a literal
          case-insensitive substring test. */
    | Regex(text: TextField, pattern: string)
      /** `{ field: { $gte: lo, $lte: hi } }` with either bound optional. */
    | Range(num: NumField, lo: Option<Num>, hi: Option<Num>)
      /** `{ amenities: { $in: values } }`. */
    | AnyAmenity(values: seq<string>)
      /** `{ field: value }` on a boolean path. */
    | Equals(flag: BoolField, value: bool)

  /** All of `all`, and, when `any` is non-empty, at least one of `any`. An
      empty `any` stands for a filter without `$or`. */
  datatype Query = Query(all: seq<Clause>, any: seq<Clause>)

  function TextOf(l: Listing, f: TextField): Option<string> {
    match f
    case Title => Some(l.title)
    case Location => Some(l.location)
    case Description => Some(l.description)
    case City => Some(l.city)
    case Country => Some(l.country)
    case PropertyType => l.propertyType
  }

  function NumOf(l: Listing, f: NumField): real {
    match f
    case Price => l.price
    case Rating => l.rating
    case MaxGuests => l.maxGuests as real
    case Bedrooms => l.bedrooms as real
    case Bathrooms => l.bathrooms as real
  }

  function FlagOf(l: Listing, f: BoolField): Option<bool> {
    match f
    case GuestFavorite => Some(l.isGuestFavorite)
    case InstantBook => l.instantBook
  }

  /** The listing has some amenity among `values`. */
  predicate HasAnyAmenity(l: Listing, values: seq<string>) {
    exists k | 0 <= k < |l.amenities| :: l.amenities[k] in values
  }

  predicate Holds(l: Listing, c: Clause) {
    match c
    case Regex(f, p) => TextOf(l, f).Some? && ContainsIgnoringCase(TextOf(l, f).value, p)
    case Range(f, lo, hi) =>
      && (lo.None? || AtLeast(NumOf(l, f), lo.value))
      && (hi.None? || AtMost(NumOf(l, f), hi.value))
    case AnyAmenity(vs) => HasAnyAmenity(l, vs)
    case Equals(f, b) => FlagOf(l, f) == Some(b)
  }

  /** Every clause of `cs` holds. */
  predicate HoldsAll(l: Listing, cs: seq<Clause>) {
    |cs| == 0 || (Holds(l, cs[0]) && HoldsAll(l, cs[1..]))
  }

  /** Some clause of `cs` holds. */
  predicate HoldsSome(l: Listing, cs: seq<Clause>) {
    |cs| > 0 && (Holds(l, cs[0]) || HoldsSome(l, cs[1..]))
  }

  /** Whether the store returns `l` for `q`. */
  predicate Matches(l: Listing, q: Query) {
    HoldsAll(l, q.all) && (|q.any| == 0 || HoldsSome(l, q.any))
  }

  /** The matching listings, in store order. */
  function Select(store: seq<Listing>, q: Query): (r: seq<Listing>)
    ensures |r| <= |store|
    ensures forall k :: 0 <= k < |r| ==> Matches(r[k], q) && r[k] in store
    ensures forall l :: l in store && Matches(l, q) ==> l in r
    ensures IsSubsequence(r, store)
  {
    if |store| == 0 then []
    else if Matches(store[0], q) then [store[0]] + Select(store[1..], q)
    else Select(store[1..], q)
  }

  /** A clause that is emitted only when `b` holds. */
  function When(b: bool, c: Clause): seq<Clause> {
    if b then [c] else []
  }

  lemma HoldsAllWhen(l: Listing, b: bool, c: Clause)
    ensures HoldsAll(l, When(b, c)) <==> (b ==> Holds(l, c))
  {
    if b {
      assert When(b, c)[1..] == [];
    }
  }

  lemma HoldsSomeWhen(l: Listing, b: bool, c: Clause)
    ensures HoldsSome(l, When(b, c)) <==> b && Holds(l, c)
  {
    if b {
      assert When(b, c)[1..] == [];
    }
  }

  lemma {:induction false} HoldsAllConcat(l: Listing, a: seq<Clause>, b: seq<Clause>)
    ensures HoldsAll(l, a + b) <==> HoldsAll(l, a) && HoldsAll(l, b)
    decreases |a|
  {
    if |a| == 0 {
      assert a + b == b;
    } else {
      assert (a + b)[1..] == a[1..] + b;
      HoldsAllConcat(l, a[1..], b);
    }
  }

  lemma {:induction false} HoldsSomeConcat(l: Listing, a: seq<Clause>, b: seq<Clause>)
    ensures HoldsSome(l, a + b) <==> HoldsSome(l, a) || HoldsSome(l, b)
    decreases |a|
  {
    if |a| == 0 {
      assert a + b == b;
    } else {
      assert (a + b)[1..] == a[1..] + b;
      HoldsSomeConcat(l, a[1..], b);
    }
  }

  /** The recursive reading of a clause list agrees with the pointwise one. */
  lemma {:induction false} HoldsAllPointwise(l: Listing, cs: seq<Clause>)
    ensures HoldsAll(l, cs) <==> forall k :: 0 <= k < |cs| ==> Holds(l, cs[k])
    decreases |cs|
  {
    if |cs| > 0 {
      HoldsAllPointwise(l, cs[1..]);
      if forall k :: 0 <= k < |cs| ==> Holds(l, cs[k]) {
        forall k | 0 <= k < |cs[1..]| ensures Holds(l, cs[1..][k]) {
          assert cs[1..][k] == cs[k + 1];
        }
      }
      if HoldsAll(l, cs) {
        forall k | 0 <= k < |cs| ensures Holds(l, cs[k]) {
          if k > 0 {
            assert cs[k] == cs[1..][k - 1];
          }
        }
      }
    }
  }

  /** The recursive reading of an alternative list agrees with the
      pointwise one. */
  lemma {:induction false} HoldsSomePointwise(l: Listing, cs: seq<Clause>)
    ensures HoldsSome(l, cs) <==> exists k :: 0 <= k < |cs| && Holds(l, cs[k])
    decreases |cs|
  {
    if |cs| > 0 {
      HoldsSomePointwise(l, cs[1..]);
      if HoldsSome(l, cs[1..]) {
        var k :| 0 <= k < |cs[1..]| && Holds(l, cs[1..][k]);
        assert cs[1..][k] == cs[k + 1];
      }
      if exists k :: 0 <= k < |cs| && Holds(l, cs[k]) {
        var k :| 0 <= k < |cs| && Holds(l, cs[k]);
        if k > 0 {
          assert cs[k] == cs[1..][k - 1];
        }
      }
    }
  }
}
