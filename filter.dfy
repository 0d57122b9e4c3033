/** The filter predicate of PropertyViewModel.setupFiltering
    (ViewModels/PropertyViewModel.swift:36-53) as pure functions: the six
    conjuncts, the stable filter over the property list, and what the
    filter guarantees (an order-preserving selection of exactly the matching
    properties, idempotent, monotone in the criteria). */
module PropertyFilter {
  import opened PropertyModel
  import opened Ascii

  /** Swift's `ClosedRange<Double>`: a range cannot be formed with its
      lower bound above its upper bound. */
  datatype PriceRange = PriceRange(lowerBound: real, upperBound: real)
  type ClosedRange = r: PriceRange | r.lowerBound <= r.upperBound
    witness PriceRange(0.0, 0.0)

  /** The six published inputs of the pipeline other than the list. */
  datatype Criteria = Criteria(
    searchText: string,
    selectedTypes: set<PropertyType>,
    priceRange: ClosedRange,
    minBedrooms: int,
    minBathrooms: int,
    minSquareFootage: int
  )

  predicate MatchesSearch(p: Property, searchText: string)
  {
    |searchText| == 0 ||
    ContainsIgnoringCase(p.title, searchText) ||
    ContainsIgnoringCase(p.address, searchText)
  }

  /** The search conjunct by position: an empty text admits every
      property; otherwise the folded text must start at some offset of the
      folded title or of the folded address. */
  lemma MatchesSearchIff(p: Property, searchText: string)
    ensures MatchesSearch(p, searchText) <==>
              searchText == "" ||
              (exists i :: OccursAt(FoldCase(searchText), FoldCase(p.title), i)) ||
              (exists i :: OccursAt(FoldCase(searchText), FoldCase(p.address), i))
  {
    IsInfixIff(FoldCase(searchText), FoldCase(p.title));
    IsInfixIff(FoldCase(searchText), FoldCase(p.address));
  }

  predicate MatchesTypes(p: Property, types: set<PropertyType>)
  {
    types == {} || p.propertyType in types
  }

  /** Inclusive at both ends. */
  predicate MatchesPrice(p: Property, range: ClosedRange)
    ensures p.price == range.lowerBound ==> MatchesPrice(p, range)
    ensures p.price == range.upperBound ==> MatchesPrice(p, range)
  {
    p.price >= range.lowerBound && p.price <= range.upperBound
  }

  /** The conjunction of the six tests. */
  predicate Matches(p: Property, c: Criteria)
  {
    MatchesSearch(p, c.searchText) &&
    MatchesTypes(p, c.selectedTypes) &&
    MatchesPrice(p, c.priceRange) &&
    p.bedrooms >= c.minBedrooms &&
    p.bathrooms >= c.minBathrooms &&
    p.squareFootage >= c.minSquareFootage
  }

  /** `properties.filter { … }`: the matching properties, in list order. */
  function Filter(props: seq<Property>, c: Criteria): (r: seq<Property>)
    ensures |r| <= |props|
    ensures forall p :: p in r ==> p in props && Matches(p, c)
    ensures forall p :: p in props && Matches(p, c) ==> p in r
  {
    if props == [] then []
    else (if Matches(props[0], c) then [props[0]] else []) + Filter(props[1..], c)
  }

  /** `a` is `b` with some elements dropped and the rest kept in order. */
  predicate IsSubsequence<T(==)>(a: seq<T>, b: seq<T>)
    decreases |b|
  {
    if a == [] then true
    else if b == [] then false
    else (a[0] == b[0] && IsSubsequence(a[1..], b[1..])) || IsSubsequence(a, b[1..])
  }

  /** The filtered list keeps the relative order of `props`. */
  lemma {:induction false} FilterIsSubsequence(props: seq<Property>, c: Criteria)
    ensures IsSubsequence(Filter(props, c), props)
    decreases |props|
  {
    if props != [] {
      FilterIsSubsequence(props[1..], c);
      var r := Filter(props, c);
      if Matches(props[0], c) {
        assert r[0] == props[0] && r[1..] == Filter(props[1..], c);
      } else {
        assert r == Filter(props[1..], c);
      }
    }
  }

  /** Each property occurs in the result as often as in the list when it
      matches, and not at all otherwise: no matching duplicate is lost. */
  lemma {:induction false} FilterCount(props: seq<Property>, c: Criteria, p: Property)
    ensures multiset(Filter(props, c))[p] == if Matches(p, c) then multiset(props)[p] else 0
    decreases |props|
  {
    if props != [] {
      FilterCount(props[1..], c, p);
      assert props == [props[0]] + props[1..];
      assert multiset(props) == multiset([props[0]]) + multiset(props[1..]);
    }
  }

  /** The filter distributes over concatenation. */
  lemma {:induction false} FilterAppend(a: seq<Property>, b: seq<Property>, c: Criteria)
    ensures Filter(a + b, c) == Filter(a, c) + Filter(b, c)
    decreases |a|
  {
    if a == [] {
      assert a + b == b;
    } else {
      var head := if Matches(a[0], c) then [a[0]] else [];
      assert (a + b)[0] == a[0] && (a + b)[1..] == a[1..] + b;
      calc {
        Filter(a + b, c);
        head + Filter(a[1..] + b, c);
        { FilterAppend(a[1..], b, c); }
        head + (Filter(a[1..], c) + Filter(b, c));
        (head + Filter(a[1..], c)) + Filter(b, c);
        Filter(a, c) + Filter(b, c);
      }
    }
  }

  /** When every property matches, the result is the whole list unchanged. */
  lemma {:induction false} FilterAllMatch(props: seq<Property>, c: Criteria)
    requires forall p :: p in props ==> Matches(p, c)
    ensures Filter(props, c) == props
    decreases |props|
  {
    if props != [] {
      FilterAllMatch(props[1..], c);
    }
  }

  /** Criteria that restrict nothing: empty search, no type, zero minimums
      and a price range wide enough for every property. */
  predicate Unrestricted(props: seq<Property>, c: Criteria)
  {
    c.searchText == "" && c.selectedTypes == {} &&
    c.minBedrooms <= 0 && c.minBathrooms <= 0 && c.minSquareFootage <= 0 &&
    forall p :: p in props ==>
      c.priceRange.lowerBound <= p.price <= c.priceRange.upperBound &&
      p.bedrooms >= 0 && p.bathrooms >= 0 && p.squareFootage >= 0
  }

  /** Unrestricted criteria return the full list, in its order. */
  lemma UnrestrictedKeepsAll(props: seq<Property>, c: Criteria)
    requires Unrestricted(props, c)
    ensures Filter(props, c) == props
  {
    FilterAllMatch(props, c);
  }

  /** Filtering twice with the same criteria changes nothing further. */
  lemma FilterIdempotent(props: seq<Property>, c: Criteria)
    ensures Filter(Filter(props, c), c) == Filter(props, c)
  {
    FilterAllMatch(Filter(props, c), c);
  }

  /** `w` admits everything `c` admits: the same search text or none, a type
      set that is empty or contains `c`'s non-empty one, a price range that
      contains `c`'s, and minimums no higher than `c`'s. */
  predicate Widens(c: Criteria, w: Criteria)
  {
    (w.searchText == "" || w.searchText == c.searchText) &&
    (w.selectedTypes == {} || (c.selectedTypes != {} && c.selectedTypes <= w.selectedTypes)) &&
    w.priceRange.lowerBound <= c.priceRange.lowerBound &&
    c.priceRange.upperBound <= w.priceRange.upperBound &&
    w.minBedrooms <= c.minBedrooms &&
    w.minBathrooms <= c.minBathrooms &&
    w.minSquareFootage <= c.minSquareFootage
  }

  lemma MatchesWidens(p: Property, c: Criteria, w: Criteria)
    requires Widens(c, w) && Matches(p, c)
    ensures Matches(p, w)
  {
  }

  lemma {:induction false} IsSubsequenceDropFront<T>(a: seq<T>, b: seq<T>, x: T)
    requires IsSubsequence(a, b)
    ensures IsSubsequence(a, [x] + b)
  {
    if a != [] {
      assert ([x] + b)[1..] == b;
    }
  }

  /** Widening the criteria never removes a property from the result (and,
      read backwards, narrowing never adds one): the old result is a
      subsequence of the new one. */
  lemma {:induction false} FilterMonotone(props: seq<Property>, c: Criteria, w: Criteria)
    requires Widens(c, w)
    ensures IsSubsequence(Filter(props, c), Filter(props, w))
    decreases |props|
  {
    if props == [] {
    } else {
      FilterMonotone(props[1..], c, w);
      var rc, rw := Filter(props[1..], c), Filter(props[1..], w);
      if Matches(props[0], c) {
        MatchesWidens(props[0], c, w);
        assert Filter(props, c) == [props[0]] + rc;
        assert Filter(props, w) == [props[0]] + rw;
      } else if Matches(props[0], w) {
        assert Filter(props, c) == rc;
        assert Filter(props, w) == [props[0]] + rw;
        IsSubsequenceDropFront(rc, rw, props[0]);
      } else {
        assert Filter(props, c) == rc;
        assert Filter(props, w) == rw;
      }
    }
  }
}
