/** PropertyViewModel (ViewModels/PropertyViewModel.swift): the store that
    owns the property list and the filter criteria and keeps
    `filteredProperties` equal to the filter of the two. The Combine
    pipeline that recomputes the list whenever one of its seven inputs is
    published is modelled as an explicit `Refilter` at the end of every
    setter, so the class invariant `Valid()` holds between calls. */
module PropertyStore {
  import opened Wrappers
  import opened PropertyModel
  import opened PropertyFilter
  import opened Ascii

  // ---------------------------------------------------------------------
  // loadMockData's fixtures

  function MockVilla(): Property
  {
    Property(
      0, "Luxury Waterfront Villa", "Stunning waterfront property with panoramic views",
      1250000.0, "123 Ocean View Drive, Malibu, CA", Coordinate(34.0259, -118.7798),
      4, 3, 3500, House, ["property1", "property2", "property3"],
      [PropertyFeature(3, "Pool", "figure.pool.swim"),
       PropertyFeature(4, "Garage", "car.fill"),
       PropertyFeature(5, "Garden", "leaf.fill")],
      ForSale)
  }

  const ApartmentTitle: string := "Modern Downtown Apartment"
  const ApartmentAddress: string := "456 City Center, Los Angeles, CA"
  const TownhouseTitle: string := "Cozy Townhouse"
  const TownhouseAddress: string := "789 Suburban Lane, Pasadena, CA"

  function MockApartment(): Property
  {
    Property(
      1, ApartmentTitle, "Contemporary living in the heart of the city",
      750000.0, ApartmentAddress, Coordinate(34.0522, -118.2437),
      2, 2, 1200, Apartment, ["property4", "property5", "property6"],
      [PropertyFeature(6, "Gym", "figure.run"),
       PropertyFeature(7, "Parking", "car.fill"),
       PropertyFeature(8, "Security", "lock.shield.fill")],
      ForSale)
  }

  function MockTownhouse(): Property
  {
    Property(
      2, TownhouseTitle, "Perfect for small families or young professionals",
      450000.0, TownhouseAddress, Coordinate(34.1478, -118.1445),
      3, 2, 1800, Townhouse, ["property7", "property8", "property9"],
      [PropertyFeature(9, "Patio", "leaf.fill"),
       PropertyFeature(10, "Storage", "archivebox.fill"),
       PropertyFeature(11, "Laundry", "washer.fill")],
      Pending)
  }

  function MockProperties(): seq<Property>
  {
    [MockVilla(), MockApartment(), MockTownhouse()]
  }

  /** Unfolds the filter over a three-element list. */
  lemma FilterTriple(a: Property, b: Property, d: Property, c: Criteria)
    ensures Filter([a, b, d], c) ==
              (if Matches(a, c) then [a] else []) +
              (if Matches(b, c) then [b] else []) +
              (if Matches(d, c) then [d] else [])
  {
    assert [a, b, d][1..] == [b, d];
    assert [b, d][1..] == [d];
    assert [d][1..] == [];
    assert Filter([d], c) == (if Matches(d, c) then [d] else []) + Filter([], c);
    assert Filter([b, d], c) == (if Matches(b, c) then [b] else []) + Filter([d], c);
  }

  /** The initial values of the published criteria. */
  function DefaultCriteria(): Criteria
  {
    Criteria("", {}, PriceRange(0.0, 1000000.0), 0, 0, 0)
  }

  /** The default price range stops at 1,000,000, below the villa's
      1,250,000: the initial list is the apartment and the townhouse. */
  lemma InitialFilter()
    ensures Filter(MockProperties(), DefaultCriteria()) == [MockApartment(), MockTownhouse()]
  {
    var c := DefaultCriteria();
    FilterTriple(MockVilla(), MockApartment(), MockTownhouse(), c);
  }

  /** Raising the lower bound to 500,000 also drops the townhouse. */
  lemma MidPriceFilter()
    ensures Filter(MockProperties(), DefaultCriteria().(priceRange := PriceRange(500000.0, 1000000.0)))
            == [MockApartment()]
  {
    FilterTriple(MockVilla(), MockApartment(), MockTownhouse(),
                 DefaultCriteria().(priceRange := PriceRange(500000.0, 1000000.0)));
  }

  /** Two selected types, with a range wide enough for every fixture, keep
      the house and the townhouse in list order; under the default range
      the house is still excluded by its price. */
  lemma TypeFilter()
    ensures Filter(MockProperties(), DefaultCriteria().(selectedTypes := {House, Townhouse},
                                                       priceRange := PriceRange(0.0, 2000000.0)))
            == [MockVilla(), MockTownhouse()]
    ensures Filter(MockProperties(), DefaultCriteria().(selectedTypes := {House, Townhouse}))
            == [MockTownhouse()]
  {
    var wide := DefaultCriteria().(selectedTypes := {House, Townhouse}, priceRange := PriceRange(0.0, 2000000.0));
    var narrow := DefaultCriteria().(selectedTypes := {House, Townhouse});
    assert Matches(MockVilla(), wide) && !Matches(MockApartment(), wide) && Matches(MockTownhouse(), wide);
    assert !Matches(MockVilla(), narrow) && !Matches(MockApartment(), narrow) && Matches(MockTownhouse(), narrow);
    FilterTriple(MockVilla(), MockApartment(), MockTownhouse(), wide);
    FilterTriple(MockVilla(), MockApartment(), MockTownhouse(), narrow);
  }

  /** A search text that reads "malibu" in any mix of cases occurs in the
      villa's address. */
  lemma VillaAddressHasMalibu(needle: string)
    requires FoldCase(needle) == "malibu"
    ensures ContainsIgnoringCase(MockVilla().address, needle)
  {
    var address := MockVilla().address;
    assert address[22..28] == "Malibu";
    FoldCaseSlice(address, 22, 28);
    assert OccursAt(FoldCase(needle), FoldCase(address), 22);
    IsInfixIff(FoldCase(needle), FoldCase(address));
  }

  /** The letters that rule "malibu" out of the other fixtures' texts. */
  lemma ApartmentTitleLacksB()
    ensures 'B' !in ApartmentTitle && 'b' !in ApartmentTitle
  {
  }

  lemma ApartmentAddressLacksB()
    ensures 'B' !in ApartmentAddress && 'b' !in ApartmentAddress
  {
  }

  lemma TownhouseTitleLacksI()
    ensures 'I' !in TownhouseTitle && 'i' !in TownhouseTitle
  {
  }

  lemma TownhouseAddressLacksI()
    ensures 'I' !in TownhouseAddress && 'i' !in TownhouseAddress
  {
  }

  /** Such a text occurs in neither the title nor the address of the
      apartment, which have no 'b'. */
  lemma ApartmentLacksMalibu(needle: string)
    requires FoldCase(needle) == "malibu"
    ensures !ContainsIgnoringCase(MockApartment().title, needle)
    ensures !ContainsIgnoringCase(MockApartment().address, needle)
  {
    assert FoldCase(needle)[4] == 'b';
    ApartmentTitleLacksB();
    ApartmentAddressLacksB();
    NotContainedWhenLetterMissing(MockApartment().title, needle, 4, 'B');
    NotContainedWhenLetterMissing(MockApartment().address, needle, 4, 'B');
  }

  /** Nor in those of the townhouse, which have no 'i'. */
  lemma TownhouseLacksMalibu(needle: string)
    requires FoldCase(needle) == "malibu"
    ensures !ContainsIgnoringCase(MockTownhouse().title, needle)
    ensures !ContainsIgnoringCase(MockTownhouse().address, needle)
  {
    assert FoldCase(needle)[3] == 'i';
    TownhouseTitleLacksI();
    TownhouseAddressLacksI();
    NotContainedWhenLetterMissing(MockTownhouse().title, needle, 3, 'I');
    NotContainedWhenLetterMissing(MockTownhouse().address, needle, 3, 'I');
  }

  /** Searching "Malibu", in any case, keeps only the villa, and keeps it
      exactly when the price range admits its 1,250,000; under the default
      range the result is therefore empty. */
  lemma SearchFilter(needle: string, r: ClosedRange)
    requires FoldCase(needle) == "malibu"
    ensures Filter(MockProperties(), DefaultCriteria().(searchText := needle, priceRange := r))
            == if r.lowerBound <= MockVilla().price <= r.upperBound then [MockVilla()] else []
    ensures Filter(MockProperties(), DefaultCriteria().(searchText := needle)) == []
  {
    VillaAddressHasMalibu(needle);
    ApartmentLacksMalibu(needle);
    TownhouseLacksMalibu(needle);
    var c := DefaultCriteria().(searchText := needle, priceRange := r);
    var narrow := DefaultCriteria().(searchText := needle);
    assert Matches(MockVilla(), c) <==> r.lowerBound <= MockVilla().price <= r.upperBound;
    assert !Matches(MockApartment(), c) && !Matches(MockTownhouse(), c);
    assert !Matches(MockVilla(), narrow) && !Matches(MockApartment(), narrow) && !Matches(MockTownhouse(), narrow);
    FilterTriple(MockVilla(), MockApartment(), MockTownhouse(), c);
    FilterTriple(MockVilla(), MockApartment(), MockTownhouse(), narrow);
  }

  // ---------------------------------------------------------------------
  // toggleFilter's set update

  /** `t`'s membership flipped, every other type's kept. */
  function Toggled(s: set<PropertyType>, t: PropertyType): (r: set<PropertyType>)
    ensures t in r <==> t !in s
    ensures forall u :: u != t ==> (u in r <==> u in s)
  {
    if t in s then s - {t} else s + {t}
  }

  /** Toggling the same type twice restores the set. */
  lemma ToggledTwice(s: set<PropertyType>, t: PropertyType)
    ensures Toggled(Toggled(s, t), t) == s
  {
  }

  class PropertyViewModel {
    var properties: seq<Property>
    var filteredProperties: seq<Property>
    var selectedProperty: Option<Property>
    var searchText: string
    var selectedFilters: set<PropertyType>
    var priceRange: ClosedRange
    var minBedrooms: int
    var minBathrooms: int
    var minSquareFootage: int

    /** The criteria the pipeline reads. */
    function CurrentCriteria(): Criteria
      reads this
    {
      Criteria(searchText, selectedFilters, priceRange, minBedrooms, minBathrooms, minSquareFootage)
    }

    /** The derived list is always the filter of the current inputs. */
    ghost predicate Valid()
      reads this
    {
      filteredProperties == Filter(properties, CurrentCriteria())
    }

    /** `init()`: default criteria, fixtures loaded, filtering set up. */
    constructor ()
      ensures Valid()
      ensures properties == MockProperties() && selectedProperty == None
      ensures CurrentCriteria() == DefaultCriteria()
      ensures filteredProperties == [MockApartment(), MockTownhouse()]
    {
      properties := [];
      filteredProperties := [];
      selectedProperty := None;
      searchText := "";
      selectedFilters := {};
      priceRange := PriceRange(0.0, 1000000.0);
      minBedrooms, minBathrooms, minSquareFootage := 0, 0, 0;
      new;
      LoadMockData();
      assert CurrentCriteria() == DefaultCriteria();
      Refilter();
      InitialFilter();
    }

    method LoadMockData()
      modifies this`properties
      ensures properties == MockProperties()
    {
      properties := MockProperties();
    }

    /** One emission of the pipeline: the filtered list is recomputed from
        the current inputs. */
    method Refilter()
      modifies this`filteredProperties
      ensures Valid()
    {
      filteredProperties := Filter(properties, CurrentCriteria());
    }

    /** Assigning `searchText` (the search field's binding). */
    method SetSearchText(text: string)
      requires Valid()
      modifies this`searchText, this`filteredProperties
      ensures Valid()
      ensures CurrentCriteria() == old(CurrentCriteria()).(searchText := text)
      ensures text == "" ==> IsSubsequence(old(filteredProperties), filteredProperties)
      ensures old(searchText) == "" ==> IsSubsequence(filteredProperties, old(filteredProperties))
    {
      ghost var before := CurrentCriteria();
      searchText := text;
      Refilter();
      if text == "" {
        FilterMonotone(properties, before, CurrentCriteria());
      }
      if before.searchText == "" {
        FilterMonotone(properties, CurrentCriteria(), before);
      }
    }

    /** `toggleFilter(_:)`: removes `t` when selected, inserts it otherwise. */
    method ToggleFilter(t: PropertyType)
      requires Valid()
      modifies this`selectedFilters, this`filteredProperties
      ensures Valid()
      ensures selectedFilters == Toggled(old(selectedFilters), t)
      ensures CurrentCriteria() == old(CurrentCriteria()).(selectedTypes := selectedFilters)
    {
      if t in selectedFilters {
        selectedFilters := selectedFilters - {t};
      } else {
        selectedFilters := selectedFilters + {t};
      }
      Refilter();
    }

    /** The type toggle of the filter sheet: inserts `t` when switched on,
        removes it when switched off. */
    method SetTypeSelected(t: PropertyType, on: bool)
      requires Valid()
      modifies this`selectedFilters, this`filteredProperties
      ensures Valid()
      ensures t in selectedFilters <==> on
      ensures forall u :: u != t ==> (u in selectedFilters <==> u in old(selectedFilters))
      ensures CurrentCriteria() == old(CurrentCriteria()).(selectedTypes := selectedFilters)
    {
      if on {
        selectedFilters := selectedFilters + {t};
      } else {
        selectedFilters := selectedFilters - {t};
      }
      Refilter();
    }

    /** `updatePriceRange(_:)`: the range is replaced as given, with no
        clamping; a range containing the old one keeps every listed
        property, one inside it adds none. */
    method UpdatePriceRange(range: ClosedRange)
      requires Valid()
      modifies this`priceRange, this`filteredProperties
      ensures Valid()
      ensures CurrentCriteria() == old(CurrentCriteria()).(priceRange := range)
      ensures range.lowerBound <= old(priceRange).lowerBound && old(priceRange).upperBound <= range.upperBound
              ==> IsSubsequence(old(filteredProperties), filteredProperties)
      ensures old(priceRange).lowerBound <= range.lowerBound && range.upperBound <= old(priceRange).upperBound
              ==> IsSubsequence(filteredProperties, old(filteredProperties))
    {
      ghost var before := CurrentCriteria();
      priceRange := range;
      Refilter();
      if range.lowerBound <= before.priceRange.lowerBound && before.priceRange.upperBound <= range.upperBound {
        FilterMonotone(properties, before, CurrentCriteria());
      }
      if before.priceRange.lowerBound <= range.lowerBound && range.upperBound <= before.priceRange.upperBound {
        FilterMonotone(properties, CurrentCriteria(), before);
      }
    }

    /** Assigning `minBedrooms` (the bedrooms stepper's binding). */
    method SetMinBedrooms(n: int)
      requires Valid()
      modifies this`minBedrooms, this`filteredProperties
      ensures Valid()
      ensures CurrentCriteria() == old(CurrentCriteria()).(minBedrooms := n)
      ensures n <= old(minBedrooms) ==> IsSubsequence(old(filteredProperties), filteredProperties)
      ensures n >= old(minBedrooms) ==> IsSubsequence(filteredProperties, old(filteredProperties))
    {
      ghost var before := CurrentCriteria();
      minBedrooms := n;
      Refilter();
      if n <= before.minBedrooms {
        FilterMonotone(properties, before, CurrentCriteria());
      } else {
        FilterMonotone(properties, CurrentCriteria(), before);
      }
    }

    /** Assigning `minBathrooms` (the bathrooms stepper's binding). */
    method SetMinBathrooms(n: int)
      requires Valid()
      modifies this`minBathrooms, this`filteredProperties
      ensures Valid()
      ensures CurrentCriteria() == old(CurrentCriteria()).(minBathrooms := n)
      ensures n <= old(minBathrooms) ==> IsSubsequence(old(filteredProperties), filteredProperties)
      ensures n >= old(minBathrooms) ==> IsSubsequence(filteredProperties, old(filteredProperties))
    {
      ghost var before := CurrentCriteria();
      minBathrooms := n;
      Refilter();
      if n <= before.minBathrooms {
        FilterMonotone(properties, before, CurrentCriteria());
      } else {
        FilterMonotone(properties, CurrentCriteria(), before);
      }
    }

    /** Assigning `minSquareFootage` (the square-footage slider's binding). */
    method SetMinSquareFootage(n: int)
      requires Valid()
      modifies this`minSquareFootage, this`filteredProperties
      ensures Valid()
      ensures CurrentCriteria() == old(CurrentCriteria()).(minSquareFootage := n)
      ensures n <= old(minSquareFootage) ==> IsSubsequence(old(filteredProperties), filteredProperties)
      ensures n >= old(minSquareFootage) ==> IsSubsequence(filteredProperties, old(filteredProperties))
    {
      ghost var before := CurrentCriteria();
      minSquareFootage := n;
      Refilter();
      if n <= before.minSquareFootage {
        FilterMonotone(properties, before, CurrentCriteria());
      } else {
        FilterMonotone(properties, CurrentCriteria(), before);
      }
    }

    /** `selectProperty(_:)`: the selection is set, with no lookup in the
        list; nothing else changes. */
    method SelectProperty(p: Property)
      requires Valid()
      modifies this`selectedProperty
      ensures Valid()
      ensures selectedProperty == Some(p)
    {
      selectedProperty := Some(p);
    }
  }
}
