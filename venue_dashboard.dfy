/** The venue operator's dashboard (VenueDashboard.tsx): the venue's bookings grouped by day,
    and a form that inserts a booking at the venue's hourly rate. */
module VenueDashboard {
  import opened Wrappers
  import opened Times
  import opened Sorting
  import opened Lists
  import opened Grouping
  import opened Bookings

  /** `allBookings.filter(booking => booking.pitch_id === venueId)` (VenueDashboard.tsx:53). */
  function VenueBookings(all: seq<Booking>, venueId: string): (r: seq<Booking>)
    ensures forall b :: b in r <==> b in all && b.pitchId == venueId
    ensures |r| <= |all|
  {
    Filter(all, (b: Booking) => b.pitchId == venueId)
  }

  function DateOf(b: Booking): int { b.date }

  /** `a.start_time.localeCompare(b.start_time)` orders "HH:MM" strings as their minutes do. */
  function StartKey(b: Booking): int { Minutes(b.start) }

  /** `Object.keys(grouped).sort()`: "YYYY-MM-DD" strings sort as their day numbers do. */
  function DayKey(d: int): int { d }

  /** One day of the schedule. */
  datatype DateGroup = DateGroup(date: int, bookings: seq<Booking>)

  /** The number of bookings over all groups. */
  function TotalSize(groups: seq<DateGroup>): nat
    decreases |groups|
  {
    if groups == [] then 0 else TotalSize(groups[..|groups| - 1]) + |groups[|groups| - 1].bookings|
  }

  /** A sorted rearrangement of a duplicate-free day list is strictly ascending and holds the
      same days. */
  lemma SortedDays(order: seq<int>, dates: seq<int>)
    requires Distinct(order) && SortedBy(dates, DayKey) && multiset(dates) == multiset(order)
    ensures forall i, j :: 0 <= i < j < |dates| ==> dates[i] < dates[j]
    ensures forall d :: d in dates <==> d in order
    ensures Distinct(dates)
  {
    DistinctPermutation(order, dates);
    forall i, j | 0 <= i < j < |dates| ensures dates[i] < dates[j] {
      assert DayKey(dates[i]) <= DayKey(dates[j]) && dates[i] != dates[j];
    }
    forall d ensures d in dates <==> d in order {
      assert d in dates <==> d in multiset(dates);
      assert d in order <==> d in multiset(order);
    }
  }

  /** Sorting a group keeps its length. */
  lemma SortKeepsLength(s: seq<Booking>)
    ensures |SortBy(s, StartKey)| == |s|
  {
    assert |multiset(SortBy(s, StartKey))| == |multiset(s)|;
  }

  /** The groups built from a day list hold the bookings of those days, day by day. */
  ghost predicate GroupsFor(result: seq<DateGroup>, dates: seq<int>, bookings: seq<Booking>)
  {
    && |result| == |dates|
    && forall k :: 0 <= k < |result| ==>
         result[k].date == dates[k] && result[k].bookings == SortBy(OnKey(bookings, DateOf, dates[k]), StartKey)
  }

  /** `groupBookingsByDate` (VenueDashboard.tsx:123-140): days in ascending order, each holding
      exactly the bookings of that day in ascending start order; no booking is lost or added. */
  method GroupBookingsByDate(bookings: seq<Booking>) returns (result: seq<DateGroup>)
    ensures forall i, j :: 0 <= i < j < |result| ==> result[i].date < result[j].date
    ensures forall i :: 0 <= i < |result| ==>
      && SortedBy(result[i].bookings, StartKey)
      && multiset(result[i].bookings) == multiset(OnKey(bookings, DateOf, result[i].date))
    ensures forall b :: b in bookings ==> exists i :: 0 <= i < |result| && result[i].date == b.date
    ensures TotalSize(result) == |bookings|
    ensures forall i :: 0 <= i < |result| ==> result[i].bookings != []
    ensures bookings == [] ==> result == []
  {
    var grouped, order := GroupBy(bookings, DateOf);
    var dates := SortBy(order, DayKey);
    KeysInOrderSpec(bookings, DateOf);
    SortedDays(order, dates);
    result := [];
    for j := 0 to |dates|
      invariant GroupsFor(result, dates[..j], bookings)
      invariant TotalSize(result) == SumSizes(dates[..j], bookings, DateOf)
    {
      var date := dates[j];
      assert date in order;
      var day := SortBy(grouped[date], StartKey);
      GroupStep(result, dates, j, bookings, day);
      result := result + [DateGroup(date, day)];
    }
    assert dates[..|dates|] == dates;
    GroupsSummary(result, dates, bookings, order);
  }

  /** One round of the loop: appending the next day's sorted group keeps `GroupsFor` and adds
      that group's size to both sides of the size count. */
  lemma GroupStep(result: seq<DateGroup>, dates: seq<int>, j: nat, bookings: seq<Booking>, day: seq<Booking>)
    requires j < |dates| && GroupsFor(result, dates[..j], bookings)
    requires day == SortBy(OnKey(bookings, DateOf, dates[j]), StartKey)
    ensures GroupsFor(result + [DateGroup(dates[j], day)], dates[..j + 1], bookings)
    ensures TotalSize(result + [DateGroup(dates[j], day)]) == TotalSize(result) + |day|
    ensures SumSizes(dates[..j + 1], bookings, DateOf) == SumSizes(dates[..j], bookings, DateOf) + |day|
  {
    var next := result + [DateGroup(dates[j], day)];
    var prefix := dates[..j + 1];
    assert prefix[..j] == dates[..j];
    forall k | 0 <= k < |next|
      ensures next[k].date == prefix[k] && next[k].bookings == SortBy(OnKey(bookings, DateOf, prefix[k]), StartKey)
    {
      if k < |result| {
        assert next[k] == result[k] && prefix[k] == dates[..j][k];
      }
    }
    assert next[..|next| - 1] == result;
    SortKeepsLength(OnKey(bookings, DateOf, dates[j]));
  }

  /** What the finished groups promise, from `GroupsFor` over the sorted day list. */
  lemma GroupsSummary(result: seq<DateGroup>, dates: seq<int>, bookings: seq<Booking>, order: seq<int>)
    requires order == KeysInOrder(bookings, DateOf)
    requires SortedBy(dates, DayKey) && multiset(dates) == multiset(order)
    requires GroupsFor(result, dates, bookings)
    requires TotalSize(result) == SumSizes(dates, bookings, DateOf)
    ensures forall i, j :: 0 <= i < j < |result| ==> result[i].date < result[j].date
    ensures forall i :: 0 <= i < |result| ==>
      && SortedBy(result[i].bookings, StartKey)
      && multiset(result[i].bookings) == multiset(OnKey(bookings, DateOf, result[i].date))
    ensures forall b :: b in bookings ==> exists i :: 0 <= i < |result| && result[i].date == b.date
    ensures TotalSize(result) == |bookings|
    ensures forall i :: 0 <= i < |result| ==> result[i].bookings != []
    ensures bookings == [] ==> result == []
  {
    KeysInOrderSpec(bookings, DateOf);
    SortedDays(order, dates);
    ResultCovers(result, dates, bookings, order);
    SizesSum(dates, bookings, DateOf);
    GroupsNonEmpty(result, dates, bookings, order);
  }

  /** Every group holds at least one booking, so no bookings make no groups. */
  lemma GroupsNonEmpty(result: seq<DateGroup>, dates: seq<int>, bookings: seq<Booking>, order: seq<int>)
    requires GroupsFor(result, dates, bookings)
    requires forall d :: d in dates <==> d in order
    requires order == KeysInOrder(bookings, DateOf)
    ensures forall i :: 0 <= i < |result| ==> result[i].bookings != []
    ensures bookings == [] ==> result == []
  {
    KeysInOrderSpec(bookings, DateOf);
    forall i | 0 <= i < |result| ensures result[i].bookings != [] {
      var day := OnKey(bookings, DateOf, dates[i]);
      assert dates[i] in order;
      var m :| 0 <= m < |bookings| && DateOf(bookings[m]) == dates[i];
      OnKeyMembers(bookings, DateOf, dates[i]);
      assert bookings[m] in day;
      assert multiset(result[i].bookings) == multiset(day);
      assert bookings[m] in multiset(result[i].bookings);
    }
    if dates != [] {
      assert dates[0] in order;
      assert KeysInOrder(bookings, DateOf) != [];
    }
  }

  /** Every booking's day is among the groups' days. */
  lemma ResultCovers(result: seq<DateGroup>, dates: seq<int>, bookings: seq<Booking>, order: seq<int>)
    requires GroupsFor(result, dates, bookings)
    requires forall d :: d in dates <==> d in order
    requires order == KeysInOrder(bookings, DateOf)
    ensures forall b :: b in bookings ==> exists i :: 0 <= i < |result| && result[i].date == b.date
    ensures forall i :: 0 <= i < |bookings| ==> DateOf(bookings[i]) in dates
  {
    KeysInOrderSpec(bookings, DateOf);
    forall i | 0 <= i < |bookings| ensures DateOf(bookings[i]) in dates {
      assert DateOf(bookings[i]) in order;
    }
    forall b | b in bookings ensures exists i :: 0 <= i < |result| && result[i].date == b.date {
      var m :| 0 <= m < |bookings| && bookings[m] == b;
      assert DateOf(bookings[m]) in dates;
      var i :| 0 <= i < |dates| && dates[i] == b.date;
      assert result[i].date == b.date;
    }
  }

  /** The "new booking" form. An empty date input is `None`. */
  datatype NewBookingForm = NewBookingForm(
    date: Option<int>, time: string, duration: nat,
    customerName: string, customerEmail: string, customerPhone: string)

  const EmptyForm := NewBookingForm(None, "", 1, "", "", "")

  /** The record handed to `bookingsApi.create` by the dashboard (VenueDashboard.tsx:71-80). */
  datatype VenueInsert = VenueInsert(
    pitchId: string, date: Option<int>, startTime: string, duration: nat,
    customerName: string, customerEmail: string, customerPhone: string, totalPrice: int)

  datatype Tab = Schedule | NewBookingTab

  /** The dashboard of one venue. Remote calls are parameters of the handlers. */
  class Dashboard {
    const venueId: string
    var venue: Option<Pitch>
    var bookings: seq<Booking>
    var newBooking: NewBookingForm
    var error: Option<string>
    var activeTab: Tab
    /** Every payload sent to `bookingsApi.create`, oldest first. */
    var inserts: seq<VenueInsert>

    constructor (id: string)
      ensures venueId == id && venue.None? && bookings == [] && newBooking == EmptyForm
      ensures error.None? && activeTab == Schedule && inserts == []
    {
      venueId := id;
      venue, bookings, newBooking := None, [], EmptyForm;
      error, activeTab, inserts := None, Schedule, [];
    }

    /** `loadVenueData`: a failed lookup leaves the venue unloaded. */
    method LoadVenueData(fetched: Fetch<Pitch>)
      modifies this`venue
      ensures venue == if fetched.Fetched? then Some(fetched.value) else old(venue)
    {
      if fetched.Fetched? {
        venue := Some(fetched.value);
      }
    }

    /** `loadBookings` (VenueDashboard.tsx:49-61): keep only this venue's bookings. */
    method LoadBookings(table: Fetch<seq<Booking>>)
      modifies this`bookings, this`error
      ensures table.Fetched? ==> bookings == VenueBookings(table.value, venueId) && error == old(error)
      ensures table.Failed? ==> bookings == old(bookings) && error == Some("Failed to load bookings")
    {
      match table
      case Fetched(all) =>
        bookings := VenueBookings(all, venueId);
      case Failed(_) =>
        error := Some("Failed to load bookings");
    }

    /** `handleCreateBooking` (VenueDashboard.tsx:63-106): nothing happens until the venue has
      loaded; otherwise the form is inserted as it stands at the venue's hourly rate (no
      availability check), and on success the form resets, the list reloads and the schedule
      tab opens. */
    method HandleCreateBooking(created: Fetch<Booking>, reload: Fetch<seq<Booking>>)
      modifies this`inserts, this`newBooking, this`bookings, this`error, this`activeTab
      ensures old(venue).None? ==>
        inserts == old(inserts) && newBooking == old(newBooking) && bookings == old(bookings) &&
        error == old(error) && activeTab == old(activeTab)
      ensures old(venue).Some? ==>
        var f := old(newBooking);
        inserts == old(inserts) + [VenueInsert(venueId, f.date, f.time, f.duration, f.customerName,
          f.customerEmail, f.customerPhone, old(venue).value.pricePerHour * f.duration)]
      ensures old(venue).Some? && created.Fetched? ==>
        && newBooking == EmptyForm && activeTab == Schedule
        && (reload.Fetched? ==> bookings == VenueBookings(reload.value, venueId) && error.None?)
        && (reload.Failed? ==> bookings == old(bookings) && error == Some("Failed to load bookings"))
      ensures old(venue).Some? && created.Failed? ==>
        newBooking == old(newBooking) && bookings == old(bookings) && activeTab == old(activeTab) &&
        error == Some("Failed to create booking")
    {
      if venue.None? {
        return;
      }
      error := None;
      var data := VenueInsert(venueId, newBooking.date, newBooking.time, newBooking.duration,
        newBooking.customerName, newBooking.customerEmail, newBooking.customerPhone,
        TotalPrice(venue.value.pricePerHour, newBooking.duration));
      inserts := inserts + [data];
      match created
      case Fetched(_) =>
        newBooking := EmptyForm;
        LoadBookings(reload);
        activeTab := Schedule;
      case Failed(_) =>
        error := Some("Failed to create booking");
    }
  }
}
