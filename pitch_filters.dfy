/** The filter panel above the pitch list (PitchFilters.tsx). Every handler builds a new
    `FilterOptions` record from the old one, stores it and hands the same record to
    `onFiltersChange`; a handler is a function from the old record to a `Change`. */
module PitchFilters {
  import opened Wrappers
  import opened Sorting
  import opened Lists

  datatype SortKey = NoSort | PriceLow | PriceHigh | CapacityLow | CapacityHigh

  datatype FilterOptions = FilterOptions(
    locations: seq<string>,
    minCapacity: int, maxCapacity: int,
    minPrice: int, maxPrice: int,
    hasToilets: bool, hasChangingRooms: bool,
    sortBy: SortKey)

  /** The stored filters after a handler, and what it passed to `onFiltersChange` (`None` when
      the handler did nothing). */
  datatype Change = Change(filters: FilterOptions, notified: Option<FilterOptions>)

  datatype RangeEnd = Min | Max
  datatype Amenity = Toilet | ChangingRooms

  /** A handler that stores a new record and reports that same record. */
  function Commit(f: FilterOptions): (r: Change)
    ensures r.filters == f && r.notified == Some(f)
  {
    Change(f, Some(f))
  }

  /** The state of a fresh panel, and the state the reset button restores. */
  function Initial(maxCapacityInData: int, maxPriceInData: int): FilterOptions
  {
    FilterOptions([], 0, maxCapacityInData, 0, maxPriceInData, false, false, NoSort)
  }

  /** `locations.filter(l => l !== location)`: every copy of `loc` dropped, the rest in order. */
  function Without(locs: seq<string>, loc: string): (r: seq<string>)
    ensures forall x :: multiset(r)[x] == if x == loc then 0 else multiset(locs)[x]
    ensures |r| <= |locs|
  {
    var p := (l: string) => l != loc;
    FilterCounts(locs, p);
    Filter(locs, p)
  }

  /** A list without `loc` is left unchanged by dropping `loc`. */
  lemma WithoutAbsent(locs: seq<string>, loc: string)
    requires loc !in locs
    ensures Without(locs, loc) == locs
  {
    FilterAll(locs, l => l != loc);
  }

  /** Dropping elements keeps a duplicate-free list duplicate-free. */
  lemma WithoutDistinct(locs: seq<string>, loc: string)
    requires Distinct(locs)
    ensures Distinct(Without(locs, loc))
  {
    var r := Without(locs, loc);
    forall i, j | 0 <= i < j < |r| ensures r[i] != r[j] {
      if r[i] == r[j] {
        RepeatTwice(r, i, j);
        DistinctOnce(locs, r[i]);
      }
    }
  }

  /** `handleLocationToggle` (PitchFilters.tsx:42-50). */
  function LocationToggle(f: FilterOptions, location: string): (r: Change)
    ensures r.notified == Some(r.filters)
    ensures r.filters == f.(locations := r.filters.locations)
    ensures location !in f.locations ==> r.filters.locations == f.locations + [location]
    ensures location in f.locations ==> r.filters.locations == Without(f.locations, location)
    ensures forall x :: x in r.filters.locations <==> (x in f.locations <==> x != location)
  {
    var locs := if location in f.locations then Without(f.locations, location) else f.locations + [location];
    assert forall x :: x in locs <==> multiset(locs)[x] > 0;
    Commit(f.(locations := locs))
  }

  /** Toggling a location twice restores which locations are selected; when it was not selected
      the list comes back exactly, and when it was, it moves to the end. */
  lemma {:induction false} ToggleTwice(f: FilterOptions, location: string)
    ensures var g := LocationToggle(LocationToggle(f, location).filters, location).filters;
      && (forall x :: x in g.locations <==> x in f.locations)
      && g == f.(locations := g.locations)
      && (location !in f.locations ==> g == f)
      && (location in f.locations ==> g.locations == Without(f.locations, location) + [location])
  {
    var once := LocationToggle(f, location).filters;
    if location !in f.locations {
      assert once.locations == f.locations + [location];
      assert once.locations[..|once.locations| - 1] == f.locations;
      WithoutAbsent(f.locations, location);
    } else {
      assert location !in once.locations;
    }
  }

  /** The selected locations stay duplicate-free under any toggle. */
  lemma ToggleKeepsDistinct(f: FilterOptions, location: string)
    requires Distinct(f.locations)
    ensures Distinct(LocationToggle(f, location).filters.locations)
  {
    if location in f.locations {
      WithoutDistinct(f.locations, location);
    } else {
      var r := LocationToggle(f, location).filters.locations;
      assert r == f.locations + [location];
      forall i, j | 0 <= i < j < |r| ensures r[i] != r[j] {
        if j == |r| - 1 {
          assert r[i] == f.locations[i];
        }
      }
    }
  }

  /** `handleCapacityRangeChange` (PitchFilters.tsx:52-65): a lower bound above the upper one,
      or an upper bound below the lower one, is ignored. */
  function CapacityRangeChange(f: FilterOptions, value: int, end: RangeEnd): (r: Change)
    ensures end == Min && value <= f.maxCapacity ==> r == Commit(f.(minCapacity := value))
    ensures end == Max && value >= f.minCapacity ==> r == Commit(f.(maxCapacity := value))
    ensures (end == Min && value > f.maxCapacity) || (end == Max && value < f.minCapacity) ==>
      r == Change(f, None)
  {
    if end == Min && value <= f.maxCapacity then Commit(f.(minCapacity := value))
    else if end == Max && value >= f.minCapacity then Commit(f.(maxCapacity := value))
    else Change(f, None)
  }

  /** `handlePriceRangeChange` (PitchFilters.tsx:67-80): the same guard on the price bounds. */
  function PriceRangeChange(f: FilterOptions, value: int, end: RangeEnd): (r: Change)
    ensures end == Min && value <= f.maxPrice ==> r == Commit(f.(minPrice := value))
    ensures end == Max && value >= f.minPrice ==> r == Commit(f.(maxPrice := value))
    ensures (end == Min && value > f.maxPrice) || (end == Max && value < f.minPrice) ==>
      r == Change(f, None)
  {
    if end == Min && value <= f.maxPrice then Commit(f.(minPrice := value))
    else if end == Max && value >= f.minPrice then Commit(f.(maxPrice := value))
    else Change(f, None)
  }

  /** Both ranges are well formed. */
  predicate RangesOrdered(f: FilterOptions)
  {
    f.minCapacity <= f.maxCapacity && f.minPrice <= f.maxPrice
  }

  /** Every bound lies on its slider, which runs from 0 to the largest value in the data. */
  predicate OnSliders(f: FilterOptions, maxCapacityInData: int, maxPriceInData: int)
  {
    && 0 <= f.minCapacity && f.maxCapacity <= maxCapacityInData
    && 0 <= f.minPrice && f.maxPrice <= maxPriceInData
  }

  /** The slider guards keep `min <= max` for both ranges, whatever value arrives. */
  lemma RangeChangesKeepOrder(f: FilterOptions, value: int, end: RangeEnd)
    requires RangesOrdered(f)
    ensures RangesOrdered(CapacityRangeChange(f, value, end).filters)
    ensures RangesOrdered(PriceRangeChange(f, value, end).filters)
  {
  }

  /** A value read off a slider keeps every bound on its slider. */
  lemma RangeChangesStayOnSliders(f: FilterOptions, value: int, end: RangeEnd, maxCapacityInData: int, maxPriceInData: int)
    requires RangesOrdered(f) && OnSliders(f, maxCapacityInData, maxPriceInData)
    ensures 0 <= value <= maxCapacityInData ==>
      OnSliders(CapacityRangeChange(f, value, end).filters, maxCapacityInData, maxPriceInData)
    ensures 0 <= value <= maxPriceInData ==>
      OnSliders(PriceRangeChange(f, value, end).filters, maxCapacityInData, maxPriceInData)
  {
  }

  /** `handleAmenityToggle` (PitchFilters.tsx:82-90): flips the chosen flag and nothing else. */
  function AmenityToggle(f: FilterOptions, amenity: Amenity): (r: Change)
    ensures r.notified == Some(r.filters)
    ensures amenity == Toilet ==>
      r.filters.hasToilets == !f.hasToilets && r.filters == f.(hasToilets := r.filters.hasToilets)
    ensures amenity == ChangingRooms ==>
      r.filters.hasChangingRooms == !f.hasChangingRooms && r.filters == f.(hasChangingRooms := r.filters.hasChangingRooms)
  {
    match amenity
    case Toilet => Commit(f.(hasToilets := !f.hasToilets))
    case ChangingRooms => Commit(f.(hasChangingRooms := !f.hasChangingRooms))
  }

  /** Two clicks on the same amenity box restore the filters. */
  lemma AmenityTwice(f: FilterOptions, amenity: Amenity)
    ensures AmenityToggle(AmenityToggle(f, amenity).filters, amenity).filters == f
  {
  }

  /** `handleSortChange` (PitchFilters.tsx:92-96): only the sort order changes. */
  function SortChange(f: FilterOptions, sortBy: SortKey): (r: Change)
    ensures r.filters.sortBy == sortBy && r.filters == f.(sortBy := sortBy)
    ensures r.notified == Some(r.filters)
  {
    Commit(f.(sortBy := sortBy))
  }

  /** Choosing a sort order twice is the same as choosing the second one. */
  lemma LastSortWins(f: FilterOptions, first: SortKey, second: SortKey)
    ensures SortChange(SortChange(f, first).filters, second) == SortChange(f, second)
  {
  }

  /** `handleReset` (PitchFilters.tsx:98-111): back to the state the panel starts in. */
  function Reset(maxCapacityInData: int, maxPriceInData: int): (r: Change)
    ensures r.filters == Initial(maxCapacityInData, maxPriceInData)
    ensures r.notified == Some(r.filters)
  {
    Commit(FilterOptions([], 0, maxCapacityInData, 0, maxPriceInData, false, false, NoSort))
  }

  /** `isFiltered` (PitchFilters.tsx:113-121): some filter or a sort order is in force. */
  predicate IsFiltered(f: FilterOptions, maxCapacityInData: int, maxPriceInData: int)
  {
    || |f.locations| > 0
    || f.minCapacity > 0
    || f.maxCapacity < maxCapacityInData
    || f.minPrice > 0
    || f.maxPrice < maxPriceInData
    || f.hasToilets
    || f.hasChangingRooms
    || f.sortBy != NoSort
  }

  /** The reset state raises no "filtered" badge, and a state whose bounds lie on the sliders
      raises it exactly when it differs from the reset state. */
  lemma FilteredIffNotInitial(f: FilterOptions, maxCapacityInData: int, maxPriceInData: int)
    ensures !IsFiltered(Reset(maxCapacityInData, maxPriceInData).filters, maxCapacityInData, maxPriceInData)
    ensures OnSliders(f, maxCapacityInData, maxPriceInData) ==>
      (IsFiltered(f, maxCapacityInData, maxPriceInData) <==> f != Initial(maxCapacityInData, maxPriceInData))
  {
  }

  /** The panel starts and resets with ordered ranges, on the sliders, with no duplicate location,
      whenever the data maxima are not negative. */
  lemma InitialWellFormed(maxCapacityInData: int, maxPriceInData: int)
    requires maxCapacityInData >= 0 && maxPriceInData >= 0
    ensures var f := Initial(maxCapacityInData, maxPriceInData);
      RangesOrdered(f) && OnSliders(f, maxCapacityInData, maxPriceInData) && Distinct(f.locations)
  {
  }
}
