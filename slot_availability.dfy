/** The booking screen's slot grid (App.tsx:35-48, 175-206): twelve fixed hourly slots whose
    `available` flag is recomputed from the confirmed bookings of the chosen pitch and day by
    comparing "HH:MM" strings. */
module SlotAvailability {
  import opened Wrappers
  import opened Times
  import opened Bookings

  datatype TimeSlot = TimeSlot(time: string, available: bool)

  /** The fixed slot list, 09:00 to 20:00, all initially available. */
  const TimeSlots: seq<TimeSlot> := [
    TimeSlot("09:00", true), TimeSlot("10:00", true), TimeSlot("11:00", true),
    TimeSlot("12:00", true), TimeSlot("13:00", true), TimeSlot("14:00", true),
    TimeSlot("15:00", true), TimeSlot("16:00", true), TimeSlot("17:00", true),
    TimeSlot("18:00", true), TimeSlot("19:00", true), TimeSlot("20:00", true)
  ]

  /** The time of slot `i`. */
  function SlotClock(i: nat): Time
    requires i < 12
  {
    Clock(9 + i, 0)
  }

  /** The slot list is the twelve whole hours from 09:00 to 20:00, in order, all available. */
  lemma SlotTimes()
    ensures |TimeSlots| == 12
    ensures forall i :: 0 <= i < 12 ==> TimeSlots[i].time == Render(SlotClock(i)) && TimeSlots[i].available
  {
    forall i | 0 <= i < 12 ensures TimeSlots[i].time == Render(SlotClock(i)) {
      assert Pad2(0) == "00";
      if i == 0 { assert Pad2(9) == "09"; }
      else if i == 1 { assert Pad2(10) == "10"; }
      else if i == 2 { assert Pad2(11) == "11"; }
      else if i == 3 { assert Pad2(12) == "12"; }
      else if i == 4 { assert Pad2(13) == "13"; }
      else if i == 5 { assert Pad2(14) == "14"; }
      else if i == 6 { assert Pad2(15) == "15"; }
      else if i == 7 { assert Pad2(16) == "16"; }
      else if i == 8 { assert Pad2(17) == "17"; }
      else if i == 9 { assert Pad2(18) == "18"; }
      else if i == 10 { assert Pad2(19) == "19"; }
      else { assert Pad2(20) == "20"; }
    }
  }

  /** `addHours(time, hours)`: a zero-padded "HH:MM" whose hour is `(hour + hours) % 24` and
      whose minute is unchanged. */
  function AddHours(t: Time, hours: nat): (r: string)
    ensures |r| == 5 && r[2] == ':'
    ensures ParseTime(r) == Some(Clock((t.hour + hours) % 24, t.minute))
  {
    var c := Clock((t.hour + hours) % 24, t.minute);
    ParseRender(c);
    Render(c)
  }

  /** The end time the grid compares against, with the hour wrapped past midnight. */
  function WrappedEnd(b: Booking): Time
  {
    Clock((b.start.hour + b.duration) % 24, b.start.minute)
  }

  /** `slotTime >= bookingStart && slotTime < bookingEnd` (App.tsx:183-187). */
  predicate CoversSlot(b: Booking, slotTime: string)
  {
    StrGe(slotTime, Render(b.start)) && StrLt(slotTime, AddHours(b.start, b.duration))
  }

  /** `existingBookings.some(...)` for one slot. */
  predicate IsBooked(slotTime: string, existing: seq<Booking>)
  {
    exists b :: b in existing && CoversSlot(b, slotTime)
  }

  /** `timeSlots.map(...)`: the same slots in the same order with only `available` recomputed. */
  function UpdatedSlots(existing: seq<Booking>): (r: seq<TimeSlot>)
    ensures |r| == |TimeSlots|
    ensures forall i :: 0 <= i < |r| ==> r[i] == TimeSlots[i].(available := r[i].available)
    ensures forall i :: 0 <= i < |r| ==> r[i].available == !IsBooked(TimeSlots[i].time, existing)
  {
    seq(|TimeSlots|, i requires 0 <= i < |TimeSlots| =>
      TimeSlot(TimeSlots[i].time, !IsBooked(TimeSlots[i].time, existing)))
  }

  /** The string test is a test on minutes: the slot lies in `[start, wrapped end)`. */
  lemma CoversSlotMinutes(b: Booking, t: Time)
    ensures CoversSlot(b, Render(t)) <==> Minutes(b.start) <= Minutes(t) < Minutes(WrappedEnd(b))
  {
    RenderOrder(t, b.start);
    RenderOrder(t, WrappedEnd(b));
  }

  /** Slot `i` is unavailable exactly when some loaded booking starts at or before it and its
      wrapped end lies after it. */
  lemma SlotBusyIff(existing: seq<Booking>, i: nat)
    requires i < 12
    ensures !UpdatedSlots(existing)[i].available <==>
      exists b :: b in existing && Minutes(b.start) <= Minutes(SlotClock(i)) < Minutes(WrappedEnd(b))
  {
    SlotTimes();
    forall b | b in existing {
      CoversSlotMinutes(b, SlotClock(i));
    }
  }

  /** With no loaded bookings every slot is available, so the grid is the initial one. */
  lemma NoBookingsAllAvailable()
    ensures UpdatedSlots([]) == TimeSlots
  {
    SlotTimes();
    var r := UpdatedSlots([]);
    assert forall i :: 0 <= i < 12 ==> r[i] == TimeSlots[i];
  }

  /** A booking whose end wraps past midnight marks no time of day as busy: its wrapped end
      comes before its start, so `slot < end` and `slot >= start` never hold together. */
  lemma WrappedBookingBlocksNothing(b: Booking, t: Time)
    requires b.start.hour + b.duration >= 24 && b.duration < 24
    ensures !CoversSlot(b, Render(t))
  {
    CoversSlotMinutes(b, t);
    assert (b.start.hour + b.duration) % 24 == b.start.hour + b.duration - 24;
  }

  /** For bookings on whole hours that do not wrap, the grid marks a slot busy exactly when a
      one-hour booking at that slot would overlap a loaded booking. */
  lemma AgreesWithOverlapForOneHour(existing: seq<Booking>, i: nat)
    requires i < 12
    requires forall b :: b in existing ==> b.start.minute == 0 && b.start.hour + b.duration < 24
    ensures !UpdatedSlots(existing)[i].available <==>
      exists b :: b in existing &&
        Overlaps(Minutes(SlotClock(i)), Minutes(SlotClock(i)) + 60, Minutes(b.start), Minutes(b.start) + b.duration * 60)
  {
    SlotBusyIff(existing, i);
    forall b | b in existing
      ensures (Minutes(b.start) <= Minutes(SlotClock(i)) < Minutes(WrappedEnd(b))) <==>
        Overlaps(Minutes(SlotClock(i)), Minutes(SlotClock(i)) + 60, Minutes(b.start), Minutes(b.start) + b.duration * 60)
    {
      WholeHourBounds(b.start.hour, b.duration, 9 + i);
    }
  }

  lemma WholeHourBounds(h: nat, d: nat, slot: nat)
    requires h + d < 24
    ensures (h * 60 <= slot * 60 < ((h + d) % 24) * 60) <==> Overlaps(slot * 60, slot * 60 + 60, h * 60, h * 60 + d * 60)
  {
    assert (h + d) % 24 == h + d;
  }

  /** The grid tests only a slot's start, never the selected duration: with one confirmed
      booking 11:00-12:00, slot 10:00 shows as available, yet a two-hour booking from 10:00
      overlaps it. */
  lemma StartOnlyCheckMissesLongerBookings()
    ensures var b := Booking("b1", "p1", 0, Clock(11, 0), 1, Confirmed, 0);
      UpdatedSlots([b])[1].available &&
      Overlaps(Minutes(SlotClock(1)), Minutes(SlotClock(1)) + 2 * 60, Minutes(b.start), Minutes(b.start) + b.duration * 60)
  {
    var b := Booking("b1", "p1", 0, Clock(11, 0), 1, Confirmed, 0);
    SlotBusyIff([b], 1);
  }
}
