/** The records the components exchange with the hosted database (src/lib/supabase.ts:15-40),
    reduced to the fields the booking rules read, and the one query the availability checks use. */
module Bookings {
  import opened Wrappers
  import opened Times
  import opened Lists

  /** A bookable pitch (venue). */
  datatype Pitch = Pitch(id: string, name: string, location: string, capacity: int, pricePerHour: int)

  /** A stored booking. `date` is a day number; `status` is the database's free-form string. */
  datatype Booking = Booking(
    id: string,
    pitchId: string,
    date: int,
    start: Time,
    duration: nat,
    status: string,
    totalPrice: int)

  /** The signed-in account, as far as the components read it. */
  datatype User = User(id: string, email: string)

  /** The player's profile row (`player_profiles`): `phone` may be null. */
  datatype PlayerProfile = PlayerProfile(fullName: string, phone: Option<string>)

  const Confirmed: string := "confirmed"

  /** `bookingsApi.getByDateAndPitch(date, pitchId)`: the confirmed bookings of one pitch on one
      day, in table order. */
  function ByDateAndPitch(table: seq<Booking>, date: int, pitchId: string): (r: seq<Booking>)
    ensures forall b :: b in r <==> b in table && b.date == date && b.pitchId == pitchId && b.status == Confirmed
    ensures |r| <= |table|
  {
    Filter(table, (b: Booking) => b.date == date && b.pitchId == pitchId && b.status == Confirmed)
  }

  /** The price rule both write paths use: hourly rate times hours. */
  function TotalPrice(pricePerHour: int, hours: nat): int
  {
    pricePerHour * hours
  }

  /** The half-open overlap of `[s1, e1)` and `[s2, e2)`: the reference the two availability
      checks are compared against. */
  predicate Overlaps(s1: int, e1: int, s2: int, e2: int)
  {
    s1 < e2 && s2 < e1
  }
}
