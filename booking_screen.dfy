/** The booking screen's state in App.tsx: the selected pitch, day, slot and duration, the
    customer details, the slot grid, and the submit handler that inserts a booking. */
module BookingScreen {
  import opened Wrappers
  import opened Times
  import opened Bookings
  import opened SlotAvailability

  datatype CustomerDetails = CustomerDetails(name: string, email: string, phone: string)

  const EmptyDetails := CustomerDetails("", "", "")

  /** `currentStep`: 'pitches' | 'booking' | 'confirmation'. */
  datatype Step = PitchesStep | BookingStep | ConfirmationStep

  /** The record handed to `bookingsApi.create` (App.tsx:234-244). Absent fields are `None`. */
  datatype BookingRequest = BookingRequest(
    pitchId: string,
    date: int,
    startTime: string,
    duration: nat,
    totalPrice: int,
    playerId: Option<string>,
    guestName: Option<string>,
    guestEmail: Option<string>,
    guestPhone: Option<string>)

  /** The insert payload: price is rate times duration, and the holder is either the signed-in
      user's id or the guest contact from the form, never both. */
  function BookingData(pitch: Pitch, date: int, time: string, duration: nat, user: Option<User>,
                       details: CustomerDetails): (r: BookingRequest)
    ensures r.totalPrice == pitch.pricePerHour * duration
    ensures r.pitchId == pitch.id && r.date == date && r.startTime == time && r.duration == duration
    ensures user.Some? ==> r.guestName.None? && r.guestEmail.None? && r.guestPhone.None?
    ensures user.Some? ==> r.playerId == if user.value.id != "" then Some(user.value.id) else None
    ensures user.None? ==>
      && r.playerId.None?
      && r.guestName == Some(details.name) && r.guestEmail == Some(details.email) && r.guestPhone == Some(details.phone)
  {
    BookingRequest(
      pitch.id, date, time, duration,
      TotalPrice(pitch.pricePerHour, duration),
      if user.Some? && user.value.id != "" then Some(user.value.id) else None,
      if user.None? then Some(details.name) else None,
      if user.None? then Some(details.email) else None,
      if user.None? then Some(details.phone) else None)
  }

  /** The prefill effect (App.tsx:72-86): a typed value is kept; an empty one takes the profile's
      or the user's value, else stays empty. Without a signed-in user nothing changes. */
  function Prefilled(prev: CustomerDetails, user: Option<User>, profile: Option<PlayerProfile>): (r: CustomerDetails)
    ensures prev.name != "" ==> r.name == prev.name
    ensures prev.email != "" ==> r.email == prev.email
    ensures prev.phone != "" ==> r.phone == prev.phone
    ensures user.Some? && prev.email == "" ==> r.email == user.value.email
    ensures user.Some? && profile.Some? && prev.name == "" ==> r.name == profile.value.fullName
    ensures user.Some? && profile.Some? && prev.phone == "" ==>
      r.phone == if profile.value.phone.Some? then profile.value.phone.value else ""
    ensures user.Some? && profile.None? ==> r.name == prev.name && r.phone == prev.phone
    ensures user.None? ==> r == prev
  {
    match user
    case None => prev
    case Some(u) =>
      match profile
      case Some(p) =>
        CustomerDetails(
          OrElse(OrElse(prev.name, p.fullName), ""),
          OrElse(OrElse(prev.email, u.email), ""),
          OrElse(prev.phone, if p.phone.Some? then p.phone.value else ""))
      case None =>
        CustomerDetails(OrElse(prev.name, ""), OrElse(OrElse(prev.email, u.email), ""), OrElse(prev.phone, ""))
  }

  /** The booking screen. Remote calls are parameters: the booking table the availability
      query reads, and the outcome of the insert. */
  class Screen {
    var selectedPitch: Option<Pitch>
    var selectedDate: Option<int>
    var selectedTime: string
    var duration: nat
    var customerDetails: CustomerDetails
    var user: Option<User>
    var playerProfile: Option<PlayerProfile>
    var currentStep: Step
    var booking: Option<Booking>
    var availableSlots: seq<TimeSlot>
    var error: Option<string>
    /** Every payload sent to `bookingsApi.create`, oldest first. */
    var requests: seq<BookingRequest>

    constructor ()
      ensures currentStep == PitchesStep && selectedPitch.None? && selectedDate.None? && selectedTime == ""
      ensures duration == 1 && customerDetails == EmptyDetails && booking.None? && error.None?
      ensures user.None? && playerProfile.None? && availableSlots == TimeSlots && requests == []
    {
      currentStep := PitchesStep;
      selectedPitch, selectedDate, selectedTime := None, None, "";
      duration := 1;
      customerDetails := EmptyDetails;
      user, playerProfile := None, None;
      booking := None;
      availableSlots := TimeSlots;
      error := None;
      requests := [];
    }

    /** Runs the prefill effect after `user` or `playerProfile` changed. */
    method ProfileChanged(newUser: Option<User>, newProfile: Option<PlayerProfile>)
      modifies this
      ensures user == newUser && playerProfile == newProfile
      ensures customerDetails == Prefilled(old(customerDetails), newUser, newProfile)
      ensures selectedPitch == old(selectedPitch) && selectedDate == old(selectedDate)
      ensures selectedTime == old(selectedTime) && duration == old(duration) && currentStep == old(currentStep)
      ensures booking == old(booking) && availableSlots == old(availableSlots)
      ensures error == old(error) && requests == old(requests)
    {
      user, playerProfile := newUser, newProfile;
      customerDetails := Prefilled(customerDetails, user, playerProfile);
    }

    /** `checkAvailability` (App.tsx:175-200): with a day and a pitch chosen, recompute the grid
      from the confirmed bookings of that pitch and day; a failed query leaves it unchanged. */
    method CheckAvailability(table: Fetch<seq<Booking>>)
      modifies this`availableSlots
      ensures availableSlots ==
        if selectedDate.Some? && selectedPitch.Some? && table.Fetched?
        then UpdatedSlots(ByDateAndPitch(table.value, selectedDate.value, selectedPitch.value.id))
        else old(availableSlots)
    {
      if selectedDate.None? || selectedPitch.None? {
        return;
      }
      match table
      case Fetched(all) =>
        availableSlots := UpdatedSlots(ByDateAndPitch(all, selectedDate.value, selectedPitch.value.id));
      case Failed(_) =>
    }

    /** `handlePitchSelect` (App.tsx:208-213). */
    method SelectPitch(pitch: Pitch)
      modifies this`selectedPitch, this`currentStep, this`selectedTime, this`selectedDate
      ensures selectedPitch == Some(pitch) && currentStep == BookingStep
      ensures selectedTime == "" && selectedDate.None?
    {
      selectedPitch := Some(pitch);
      currentStep := BookingStep;
      selectedTime := "";
      selectedDate := None;
    }

    /** `handleBookingSubmit` (App.tsx:215-267): without a pitch, day or time nothing happens;
      otherwise the payload is sent as it stands. The grid is not consulted again, so a slot
      shown as taken or a duration running into a later booking is not refused here. */
    method SubmitBooking(response: Fetch<Booking>)
      modifies this`requests, this`booking, this`currentStep, this`error
      ensures selectedPitch.None? || selectedDate.None? || selectedTime == "" ==>
        requests == old(requests) && booking == old(booking) &&
        currentStep == old(currentStep) && error == old(error)
      ensures selectedPitch.Some? && selectedDate.Some? && selectedTime != "" ==>
        requests == old(requests) + [BookingData(selectedPitch.value, selectedDate.value, selectedTime,
                                                 duration, user, customerDetails)] &&
        (response.Fetched? ==> booking == Some(response.value) && currentStep == ConfirmationStep && error.None?) &&
        (response.Failed? ==> booking == old(booking) && currentStep == old(currentStep) &&
                              error == Some("Failed to create booking. Please try again."))
    {
      if selectedPitch.None? || selectedDate.None? || selectedTime == "" {
        return;
      }
      error := None;
      var data := BookingData(selectedPitch.value, selectedDate.value, selectedTime, duration, user, customerDetails);
      requests := requests + [data];
      match response
      case Fetched(created) =>
        booking := Some(created);
        currentStep := ConfirmationStep;
      case Failed(_) =>
        error := Some("Failed to create booking. Please try again.");
    }

    /** `resetForm` (App.tsx:284-293): back to the pitch list with an empty form. */
    method ResetForm()
      modifies this`currentStep, this`selectedPitch, this`selectedDate, this`selectedTime,
               this`duration, this`customerDetails, this`booking, this`error
      ensures currentStep == PitchesStep && selectedPitch.None? && selectedDate.None? && selectedTime == ""
      ensures duration == 1 && customerDetails == EmptyDetails && booking.None? && error.None?
    {
      currentStep := PitchesStep;
      selectedPitch, selectedDate, selectedTime := None, None, "";
      duration := 1;
      customerDetails := EmptyDetails;
      booking := None;
      error := None;
    }
  }
}
