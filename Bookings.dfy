/**
 * The bookings page (src/pages/Bookings.tsx): the mapper from the API's reservation record
 * and the status-to-colour classifier of the status badge.
 */
module Bookings {
  import opened Wrappers
  import opened Text

  datatype ApiReservation = ApiReservation(
    ID: int,
    CreatedAt: string,
    UpdatedAt: string,
    DeletedAt: Option<string>,
    flight_id: int,
    user_id: int,
    seat_number: string,
    booking_time: string,
    status: string,
    departure_city: string,
    arrival_city: string,
    departure_time: string,
    arrival_time: string)

  datatype Reservation = Reservation(
    ID: int,
    FlightID: int,
    UserID: int,
    SeatNumber: string,
    BookingTime: string,
    Status: string,
    DepartureCity: string,
    ArrivalCity: string,
    DepartureTime: string,
    ArrivalTime: string)

  /** `parseApiReservation`: rename the ten reservation fields. */
  function ParseApiReservation(a: ApiReservation): Reservation {
    Reservation(a.ID, a.flight_id, a.user_id, a.seat_number, a.booking_time, a.status,
                a.departure_city, a.arrival_city, a.departure_time, a.arrival_time)
  }

  /** The API record a reservation came from, given the three fields the mapper drops. */
  function ToApiReservation(r: Reservation, createdAt: string, updatedAt: string, deletedAt: Option<string>): ApiReservation {
    ApiReservation(r.ID, createdAt, updatedAt, deletedAt, r.FlightID, r.UserID, r.SeatNumber,
                   r.BookingTime, r.Status, r.DepartureCity, r.ArrivalCity, r.DepartureTime, r.ArrivalTime)
  }

  /** The mapper loses exactly CreatedAt, UpdatedAt and DeletedAt. */
  lemma ParseReservationRoundTrip(a: ApiReservation, r: Reservation, createdAt: string, updatedAt: string, deletedAt: Option<string>)
    ensures ToApiReservation(ParseApiReservation(a), a.CreatedAt, a.UpdatedAt, a.DeletedAt) == a
    ensures ParseApiReservation(ToApiReservation(r, createdAt, updatedAt, deletedAt)) == r
  {
  }

  const Gray := "text-gray-600"
  const Green := "text-green-600"
  const Yellow := "text-yellow-600"
  const Red := "text-red-600"

  /** `getStatusColor`: a missing or empty status is grey; otherwise the lowercased status picks
      green, yellow or red, and anything else is grey. */
  function GetStatusColor(status: Option<string>): (color: string)
    ensures color == Gray || color == Green || color == Yellow || color == Red
    ensures color == Green <==> status.Some? && Lower(status.value) == "confirmed"
    ensures color == Yellow <==> status.Some? && Lower(status.value) == "pending"
    ensures color == Red <==> status.Some? && Lower(status.value) == "cancelled"
  {
    if status.None? || status.value == "" then Gray
    else
      var s := Lower(status.value);
      if s == "confirmed" then Green
      else if s == "pending" then Yellow
      else if s == "cancelled" then Red
      else Gray
  }

  /** The classification ignores letter case. */
  lemma StatusColorIgnoresCase(status: string)
    ensures GetStatusColor(Some(status)) == GetStatusColor(Some(Lower(status)))
  {
    LowerIdempotent(status);
  }
}
