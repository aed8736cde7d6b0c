/** The venues page (VenuesPage.tsx): pitches grouped by location into collapsible sections,
    with a count of locations and the overall price range. */
module VenuesPage {
  import opened Wrappers
  import opened Sorting
  import opened Lists
  import opened Grouping
  import opened Bookings

  function LocationOf(p: Pitch): string
  {
    p.location
  }

  /** The five pitches shown when `pitchesApi.getAll` fails (VenuesPage.tsx:32-88). */
  const MockPitches: seq<Pitch> := [
    Pitch("1", "Premier Football Arena", "Mount Lavinia", 14, 3500),
    Pitch("2", "Elite Sports Complex", "Kalubowila", 18, 3700),
    Pitch("3", "Championship Futsal Ground", "Colombo 07", 22, 4500),
    Pitch("4", "Community Sports Field", "Mount Lavinia", 16, 2800),
    Pitch("5", "Urban Football Hub", "Colombo 07", 20, 4200)
  ]

  /** Each pitch is in the section of its own location and in no other, a section keeps the
      input order, and the section sizes add up to the number of pitches. */
  lemma SectionsPartitionPitches(pitches: seq<Pitch>)
    ensures forall loc, p :: p in OnKey(pitches, LocationOf, loc) <==> p in pitches && p.location == loc
    ensures forall loc :: OnKey(pitches, LocationOf, loc) == Filter(pitches, p => LocationOf(p) == loc)
    ensures SumSizes(KeysInOrder(pitches, LocationOf), pitches, LocationOf) == |pitches|
  {
    forall loc ensures forall p :: p in OnKey(pitches, LocationOf, loc) <==> p in pitches && p.location == loc {
      OnKeyMembers(pitches, LocationOf, loc);
    }
    forall loc ensures OnKey(pitches, LocationOf, loc) == Filter(pitches, p => LocationOf(p) == loc) {
      OnKeyIsFilter(pitches, LocationOf, loc);
    }
    KeysInOrderSpec(pitches, LocationOf);
    forall i | 0 <= i < |pitches| ensures LocationOf(pitches[i]) in KeysInOrder(pitches, LocationOf) {
      assert 0 <= i < |pitches| && LocationOf(pitches[i]) == LocationOf(pitches[i]);
    }
    SizesSum(KeysInOrder(pitches, LocationOf), pitches, LocationOf);
  }

  /** The "Locations" figure (VenuesPage.tsx:270) is the number of distinct locations. */
  lemma SectionCount(pitches: seq<Pitch>)
    ensures |KeysInOrder(pitches, LocationOf)| == |set i | 0 <= i < |pitches| :: pitches[i].location|
  {
    var order := KeysInOrder(pitches, LocationOf);
    var locations := set i | 0 <= i < |pitches| :: pitches[i].location;
    KeysInOrderSpec(pitches, LocationOf);
    forall i | 0 <= i < |pitches| ensures pitches[i].location in order {
      assert 0 <= i < |pitches| && LocationOf(pitches[i]) == pitches[i].location;
    }
    forall loc | loc in order ensures loc in locations {
      var i :| 0 <= i < |pitches| && LocationOf(pitches[i]) == loc;
    }
    assert (set x | x in order) == locations;
    DistinctCardinality(order);
  }

  /** `toggleLocation` (VenuesPage.tsx:118-126) on the set of open sections. */
  function ToggleLocation(expanded: set<string>, location: string): (r: set<string>)
    ensures location in r <==> location !in expanded
    ensures forall other :: other != location ==> (other in r <==> other in expanded)
  {
    if location in expanded then expanded - {location} else expanded + {location}
  }

  /** Two clicks on a section header restore the open sections. */
  lemma ToggleTwice(expanded: set<string>, location: string)
    ensures ToggleLocation(ToggleLocation(expanded, location), location) == expanded
  {
    var once := ToggleLocation(expanded, location);
    var twice := ToggleLocation(once, location);
    forall x ensures x in twice <==> x in expanded {
      if x == location {
        assert location in once <==> location !in expanded;
      }
    }
  }

  /** The lowest and highest hourly price. */
  datatype PriceSpan = PriceSpan(low: int, high: int)

  /** The price range of VenuesPage.tsx:282; with no pitches `Math.min`/`Math.max` give the
      infinities, which the model reports as `None`. */
  function PriceRange(pitches: seq<Pitch>): (r: Option<PriceSpan>)
    ensures r.None? <==> pitches == []
    ensures r.Some? ==> forall i :: 0 <= i < |pitches| ==>
      r.value.low <= pitches[i].pricePerHour <= r.value.high
    ensures r.Some? ==> exists i :: 0 <= i < |pitches| && pitches[i].pricePerHour == r.value.low
    ensures r.Some? ==> exists i :: 0 <= i < |pitches| && pitches[i].pricePerHour == r.value.high
    decreases |pitches|
  {
    if pitches == [] then None
    else
      var last := pitches[|pitches| - 1];
      var before := PriceRange(pitches[..|pitches| - 1]);
      if before.None? then Some(PriceSpan(last.pricePerHour, last.pricePerHour))
      else
        var span := before.value;
        var low := if last.pricePerHour < span.low then last.pricePerHour else span.low;
        var high := if last.pricePerHour > span.high then last.pricePerHour else span.high;
        assert forall i :: 0 <= i < |pitches| - 1 ==> pitches[..|pitches| - 1][i] == pitches[i];
        Some(PriceSpan(low, high))
  }

  /** The page's state. `grouped` and `order` together are the `groupedPitches` object (its
      entries in `Object.keys` order). */
  class VenuesScreen {
    var pitches: seq<Pitch>
    var grouped: map<string, seq<Pitch>>
    var order: seq<string>
    var expanded: set<string>

    constructor ()
      ensures pitches == [] && grouped == map[] && order == [] && expanded == {}
    {
      pitches, grouped, order, expanded := [], map[], [], {};
    }

    /** `loadPitches` (VenuesPage.tsx:20-116): the fetched list, or the mock list when the fetch
      fails, grouped by location. The open sections are cleared only when the first location
      is a non-empty string, because `if (firstLocation)` tests that string's truthiness. */
    method LoadPitches(fetched: Fetch<seq<Pitch>>)
      modifies this
      ensures pitches == if fetched.Fetched? then fetched.value else MockPitches
      ensures order == KeysInOrder(pitches, LocationOf)
      ensures grouped.Keys == set loc | loc in order
      ensures forall loc :: loc in grouped ==> grouped[loc] == OnKey(pitches, LocationOf, loc) && grouped[loc] != []
      ensures expanded == if order != [] && order[0] != "" then {} else old(expanded)
    {
      pitches := if fetched.Fetched? then fetched.value else MockPitches;
      grouped, order := GroupBy(pitches, LocationOf);
      if order != [] && order[0] != "" {
        expanded := {};
      }
    }

    /** A click on a section header. */
    method ToggleSection(location: string)
      modifies this`expanded
      ensures expanded == ToggleLocation(old(expanded), location)
    {
      expanded := ToggleLocation(expanded, location);
    }
  }

  /** The mock list shows three locations: Mount Lavinia, Kalubowila and Colombo 07, in that order. */
  lemma MockSections()
    ensures KeysInOrder(MockPitches, LocationOf) == ["Mount Lavinia", "Kalubowila", "Colombo 07"]
  {
    var m := MockPitches;
    assert m[..1][..0] == [] && m[..2][..1] == m[..1] && m[..3][..2] == m[..2];
    assert m[..4][..3] == m[..3] && m[..5][..4] == m[..4] && m[..5] == m;
    assert KeysInOrder(m[..1], LocationOf) == ["Mount Lavinia"];
    assert KeysInOrder(m[..2], LocationOf) == ["Mount Lavinia", "Kalubowila"];
    assert KeysInOrder(m[..3], LocationOf) == ["Mount Lavinia", "Kalubowila", "Colombo 07"];
    assert KeysInOrder(m[..4], LocationOf) == ["Mount Lavinia", "Kalubowila", "Colombo 07"];
  }

  /** The mock list's prices run from 2800 to 4500 an hour. */
  lemma MockPriceRange()
    ensures PriceRange(MockPitches) == Some(PriceSpan(2800, 4500))
  {
    var m := MockPitches;
    assert m[..5] == m;
    assert m[..5][..4] == m[..4] && m[..4][..3] == m[..3] && m[..3][..2] == m[..2];
    assert m[..2][..1] == m[..1] && m[..1][..0] == [];
    assert PriceRange(m[..2]) == Some(PriceSpan(3500, 3700));
    assert PriceRange(m[..3]) == Some(PriceSpan(3500, 4500));
    assert PriceRange(m[..4]) == Some(PriceSpan(2800, 4500));
  }
}
