/** The "Upcoming Bookings" card (UpcomingBookings.tsx): the player's confirmed bookings from
    today on, earliest first, at most three, and the Today/Tomorrow date label. "Today" is a
    day number handed in by the caller. */
module UpcomingBookings {
  import opened Times
  import opened Sorting
  import opened Lists
  import opened Bookings

  /** The filter of UpcomingBookings.tsx:29-32. */
  predicate Qualifies(b: Booking, today: int)
  {
    b.date >= today && b.status == Confirmed
  }

  /** The bookings that pass the filter, in input order, each as often as in the input. */
  function Qualifying(all: seq<Booking>, today: int): (r: seq<Booking>)
    ensures forall b :: multiset(r)[b] == if Qualifies(b, today) then multiset(all)[b] else 0
    ensures forall b :: b in r <==> b in all && Qualifies(b, today)
  {
    var p := (b: Booking) => Qualifies(b, today);
    FilterCounts(all, p);
    Filter(all, p)
  }

  /** The comparator of UpcomingBookings.tsx:33-37 as one number: the day first, then the start
      time within the day (`localeCompare` on zero-padded "HH:MM" agrees with minutes, see
      `Times.RenderOrder`). */
  function UpKey(b: Booking): int
  {
    b.date * 1440 + Minutes(b.start)
  }

  /** The day dominates the time of day in `UpKey`. */
  lemma KeyIsLexicographic(a: Booking, b: Booking)
    ensures UpKey(a) <= UpKey(b) <==>
      a.date < b.date || (a.date == b.date && Minutes(a.start) <= Minutes(b.start))
  {
    if a.date < b.date {
      assert a.date * 1440 + 1440 <= b.date * 1440;
    } else if a.date > b.date {
      assert b.date * 1440 + 1440 <= a.date * 1440;
    }
  }

  /** `loadUpcomingBookings` (UpcomingBookings.tsx:28-38): filter, sort, keep the first three.
      No booking appears on the card more often than among the qualifying ones. */
  function UpcomingList(all: seq<Booking>, today: int): (r: seq<Booking>)
    ensures |r| <= 3
    ensures |r| == if |Qualifying(all, today)| < 3 then |Qualifying(all, today)| else 3
    ensures multiset(r) <= multiset(Qualifying(all, today))
    ensures forall b :: b in r ==> b in all && Qualifies(b, today)
    ensures forall i, j :: 0 <= i < j < |r| ==>
      r[i].date < r[j].date || (r[i].date == r[j].date && Minutes(r[i].start) <= Minutes(r[j].start))
  {
    var sorted := SortBy(Qualifying(all, today), UpKey);
    var n := if |sorted| < 3 then |sorted| else 3;
    var r := sorted[..n];
    assert sorted == r + sorted[n..];
    assert multiset(sorted) == multiset(r) + multiset(sorted[n..]);
    forall b | b in r ensures b in all && Qualifies(b, today) {
      assert b in multiset(sorted);
    }
    assert |multiset(sorted)| == |multiset(Qualifying(all, today))|;
    forall i, j | 0 <= i < j < |r|
      ensures r[i].date < r[j].date || (r[i].date == r[j].date && Minutes(r[i].start) <= Minutes(r[j].start))
    {
      KeyIsLexicographic(r[i], r[j]);
    }
    r
  }

  /** An element that occurs more often in a sorted list than in its first `n` elements sits
      at or after position `n`, so everything in those `n` is no later. */
  lemma SortedPrefixBelow(sorted: seq<Booking>, n: nat, b: Booking)
    requires SortedBy(sorted, UpKey) && n <= |sorted|
    requires multiset(sorted[..n])[b] < multiset(sorted)[b]
    ensures n < |sorted|
    ensures forall x :: x in sorted[..n] ==> UpKey(x) <= UpKey(b)
  {
    assert sorted == sorted[..n] + sorted[n..];
    assert b in sorted[n..];
    var k :| 0 <= k < |sorted[n..]| && sorted[n..][k] == b;
    assert sorted[n + k] == b;
    forall x | x in sorted[..n] ensures UpKey(x) <= UpKey(b) {
      var i :| 0 <= i < n && sorted[..n][i] == x;
      assert sorted[i] == x;
    }
  }

  /** The card shows the earliest qualifying bookings: when a qualifying booking is left out
      (it occurs more often among the qualifying ones than on the card), the card is full and
      nothing on it starts later. */
  lemma NoEarlierOmitted(all: seq<Booking>, today: int, b: Booking)
    requires multiset(UpcomingList(all, today))[b] < multiset(Qualifying(all, today))[b]
    ensures |UpcomingList(all, today)| == 3
    ensures forall x :: x in UpcomingList(all, today) ==> UpKey(x) <= UpKey(b)
  {
    var sorted := SortBy(Qualifying(all, today), UpKey);
    var n := if |sorted| < 3 then |sorted| else 3;
    assert UpcomingList(all, today) == sorted[..n];
    SortedPrefixBelow(sorted, n, b);
  }

  /** With fewer than four qualifying bookings the card shows all of them. */
  lemma ShortListShownWhole(all: seq<Booking>, today: int)
    requires |Qualifying(all, today)| <= 3
    ensures multiset(UpcomingList(all, today)) == multiset(Qualifying(all, today))
  {
    var sorted := SortBy(Qualifying(all, today), UpKey);
    assert sorted[..|sorted|] == sorted;
  }

  /** The label of `formatDate` (UpcomingBookings.tsx:49-70); the formatted date itself is
      locale text and stays abstract. */
  datatype DayLabel = Today | Tomorrow | OnDate(day: int)

  function FormatDate(date: int, today: int): (r: DayLabel)
    ensures r == Today <==> date == today
    ensures r == Tomorrow <==> date == today + 1
    ensures r.OnDate? ==> r.day == date
  {
    if date == today then Today
    else if date == today + 1 then Tomorrow
    else OnDate(date)
  }
}
