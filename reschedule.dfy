/** The reschedule dialog (RescheduleModal.tsx): it offers the whole-hour starts 06:00-22:00 for
    a new day and keeps those whose interval, of the booking's own duration, clashes with no other
    confirmed booking of the pitch on that day. */
module Reschedule {
  import opened Wrappers
  import opened Times
  import opened Sorting
  import opened Lists
  import opened Bookings

  const FirstHour: nat := 6
  const LastHour: nat := 22

  /** `allTimes`: "06:00", "07:00", ..., "22:00". */
  function Candidates(): (r: seq<string>)
  {
    seq(LastHour - FirstHour + 1, i requires 0 <= i <= LastHour - FirstHour => Render(Clock(FirstHour + i, 0)))
  }

  /** The three-clause test of RescheduleModal.tsx:60-64 on minute offsets. */
  predicate ThreeClauseConflict(start: int, end: int, existingStart: int, existingEnd: int)
  {
    || (start >= existingStart && start < existingEnd)
    || (end > existingStart && end <= existingEnd)
    || (start <= existingStart && end >= existingEnd)
  }

  /** Whether `other` rules out starting `booking` at minute `startMinutes`. The booking itself
      (same id) is skipped. */
  predicate ConflictsWith(booking: Booking, startMinutes: int, other: Booking)
  {
    other.id != booking.id &&
    ThreeClauseConflict(startMinutes, startMinutes + booking.duration * 60,
                        Minutes(other.start), Minutes(other.start) + other.duration * 60)
  }

  /** No loaded booking rules out the start. */
  predicate FreeAt(booking: Booking, existing: seq<Booking>, startMinutes: int)
  {
    forall other :: other in existing ==> !ConflictsWith(booking, startMinutes, other)
  }

  /** Whether the filter keeps `time`. A string without a two-digit "HH:MM" parse has no minutes
      it can conflict on (in JavaScript every comparison with `NaN` is false), so it is kept. */
  predicate Keeps(booking: Booking, existing: seq<Booking>, time: string)
  {
    var parsed := ParseTime(time);
    parsed.None? || FreeAt(booking, existing, Minutes(parsed.value))
  }

  /** `allTimes.filter(...)` (RescheduleModal.tsx:48-69), in input order. */
  function FreeTimes(booking: Booking, existing: seq<Booking>, times: seq<string>): (r: seq<string>)
    ensures forall t :: t in r <==> t in times && Keeps(booking, existing, t)
    ensures |r| <= |times|
  {
    Filter(times, t => Keeps(booking, existing, t))
  }

  /** The availability computation of `checkAvailability`: builds the candidate list with a loop,
      then filters it, leaving the inner loop at the first conflicting booking. */
  method AvailableStarts(booking: Booking, existing: seq<Booking>) returns (available: seq<string>)
    ensures available == FreeTimes(booking, existing, Candidates())
  {
    var allTimes: seq<string> := [];
    for hour := FirstHour to LastHour + 1
      invariant allTimes == Candidates()[..hour - FirstHour]
    {
      allTimes := allTimes + [Render(Clock(hour, 0))];
    }
    assert allTimes == Candidates();
    available := [];
    for k := 0 to |allTimes|
      invariant available == FreeTimes(booking, existing, allTimes[..k])
    {
      var time := allTimes[k];
      var parsed := ParseTime(time);
      var keep := true;
      if parsed.Some? {
        var startMinutes := parsed.value.hour * 60 + parsed.value.minute;
        var endMinutes := startMinutes + booking.duration * 60;
        var j := 0;
        while keep && j < |existing|
          invariant 0 <= j <= |existing|
          invariant keep == forall m :: 0 <= m < j ==> !ConflictsWith(booking, startMinutes, existing[m])
          invariant !keep ==> !FreeAt(booking, existing, startMinutes)
        {
          var other := existing[j];
          if other.id != booking.id {
            var existingStart := other.start.hour * 60 + other.start.minute;
            var existingEnd := existingStart + other.duration * 60;
            if || (startMinutes >= existingStart && startMinutes < existingEnd)
               || (endMinutes > existingStart && endMinutes <= existingEnd)
               || (startMinutes <= existingStart && endMinutes >= existingEnd)
            {
              keep := false;
            }
          }
          j := j + 1;
        }
        assert keep ==> FreeAt(booking, existing, startMinutes) by {
          if keep {
            forall other | other in existing ensures !ConflictsWith(booking, startMinutes, other) {
              var m :| 0 <= m < |existing| && existing[m] == other;
            }
          }
        }
      }
      assert allTimes[..k + 1] == allTimes[..k] + [time];
      if keep {
        available := available + [time];
      }
    }
    assert allTimes[..|allTimes|] == allTimes;
  }

  /** The candidates are exactly the 17 whole hours 06:00 to 22:00, in increasing order. */
  lemma CandidatesSpec()
    ensures |Candidates()| == 17
    ensures forall i :: 0 <= i < 17 ==> Candidates()[i] == Render(Clock(6 + i, 0))
    ensures forall i, j :: 0 <= i < j < 17 ==> StrLt(Candidates()[i], Candidates()[j])
  {
    forall i, j | 0 <= i < j < 17 ensures StrLt(Candidates()[i], Candidates()[j]) {
      RenderOrder(Clock(6 + i, 0), Clock(6 + j, 0));
    }
  }

  /** For a candidate start, being offered means that no other booking's interval overlaps the
      interval `[h*60, h*60 + duration*60)` in the half-open sense, when all durations are positive. */
  lemma OfferedIffNoOverlap(booking: Booking, existing: seq<Booking>, h: nat)
    requires FirstHour <= h <= LastHour
    requires booking.duration > 0 && forall other :: other in existing ==> other.duration > 0
    ensures Render(Clock(h, 0)) in FreeTimes(booking, existing, Candidates()) <==>
      forall other :: other in existing && other.id != booking.id ==>
        !Overlaps(h * 60, h * 60 + booking.duration * 60, Minutes(other.start), Minutes(other.start) + other.duration * 60)
  {
    CandidatesSpec();
    ParseRender(Clock(h, 0));
    assert Candidates()[h - 6] == Render(Clock(h, 0));
    forall other | other in existing {
      ThreeClauseIsOverlap(h * 60, h * 60 + booking.duration * 60, Minutes(other.start), Minutes(other.start) + other.duration * 60);
    }
  }

  /** For non-empty intervals the three-clause test is the half-open overlap `s < e' && s' < e`. */
  lemma ThreeClauseIsOverlap(start: int, end: int, existingStart: int, existingEnd: int)
    requires start < end && existingStart < existingEnd
    ensures ThreeClauseConflict(start, end, existingStart, existingEnd) <==> Overlaps(start, end, existingStart, existingEnd)
  {
  }

  /** Back to back is allowed: ending exactly at another booking's start, or starting exactly at
      its end, is no conflict. */
  lemma BackToBackAllowed(start: int, end: int, existingStart: int, existingEnd: int)
    requires start < end && existingStart < existingEnd
    requires end == existingStart || start == existingEnd
    ensures !ThreeClauseConflict(start, end, existingStart, existingEnd)
  {
  }

  /** The booking being rescheduled never conflicts with itself: adding any booking with its id
      to the loaded list changes nothing. */
  lemma SelfIsSkipped(booking: Booking, existing: seq<Booking>, self: Booking, startMinutes: int)
    requires self.id == booking.id
    ensures FreeAt(booking, existing + [self], startMinutes) == FreeAt(booking, existing, startMinutes)
  {
  }

  /** With no other bookings on the day, every candidate is offered. */
  lemma NoOthersAllOffered(booking: Booking, existing: seq<Booking>, times: seq<string>)
    requires forall other :: other in existing ==> other.id == booking.id
    ensures FreeTimes(booking, existing, times) == times
  {
    FilterAll(times, t => Keeps(booking, existing, t));
  }

  /** A call made to `bookingsApi.rescheduleBooking(id, date, time, hours)`. */
  datatype RescheduleCall = RescheduleCall(bookingId: string, date: int, time: string, duration: nat)

  /** The dialog's state for one booking. The booking table and the outcome of the reschedule
      call are parameters of the handlers. */
  class Modal {
    const booking: Booking
    var newDate: Option<int>
    var newTime: string
    var error: Option<string>
    var availableTimes: seq<string>
    /** Every reschedule request sent, oldest first. */
    var calls: seq<RescheduleCall>
    /** Whether `onSuccess` has been called. */
    var succeeded: bool

    constructor (b: Booking)
      ensures booking == b && newDate.None? && newTime == "" && error.None?
      ensures availableTimes == [] && calls == [] && !succeeded
    {
      booking := b;
      newDate, newTime, error := None, "", None;
      availableTimes, calls, succeeded := [], [], false;
    }

    /** `checkAvailability` (RescheduleModal.tsx:34-78): for the chosen day, list the starts not
      blocked by another confirmed booking of the same pitch; a failed query sets an error. */
    method CheckAvailability(table: Fetch<seq<Booking>>)
      modifies this`error, this`availableTimes
      ensures newDate.None? ==> error == old(error) && availableTimes == old(availableTimes)
      ensures newDate.Some? && table.Fetched? ==>
        && error.None?
        && availableTimes == FreeTimes(booking, ByDateAndPitch(table.value, newDate.value, booking.pitchId), Candidates())
      ensures newDate.Some? && table.Failed? ==>
        error == Some("Failed to check availability") && availableTimes == old(availableTimes)
    {
      if newDate.None? {
        return;
      }
      error := None;
      match table
      case Fetched(all) =>
        var existing := ByDateAndPitch(all, newDate.value, booking.pitchId);
        availableTimes := AvailableStarts(booking, existing);
      case Failed(_) =>
        error := Some("Failed to check availability");
    }

    /** `handleReschedule` (RescheduleModal.tsx:80-98): without both a day and a time it only sets
      an error; otherwise it sends the request with the booking's own duration. The offered
      list is not consulted again. */
    method HandleReschedule(outcome: Option<string>)
      modifies this`error, this`calls, this`succeeded
      ensures newDate.None? || newTime == "" ==>
        error == Some("Please select both date and time") && calls == old(calls) && succeeded == old(succeeded)
      ensures newDate.Some? && newTime != "" ==>
        calls == old(calls) + [RescheduleCall(booking.id, newDate.value, newTime, booking.duration)] &&
        (outcome.None? ==> error.None? && succeeded) &&
        (outcome.Some? ==> error == Some(OrElse(outcome.value, "Failed to reschedule booking")) && succeeded == old(succeeded))
    {
      if newDate.None? || newTime == "" {
        error := Some("Please select both date and time");
        return;
      }
      error := None;
      calls := calls + [RescheduleCall(booking.id, newDate.value, newTime, booking.duration)];
      match outcome
      case None =>
        succeeded := true;
      case Some(message) =>
        error := Some(OrElse(message, "Failed to reschedule booking"));
    }
  }
}
