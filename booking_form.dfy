/** The booking form of src/pages/BookingPage.tsx: the stay length, the
    price, and the checks `handleSubmit` runs before it inserts a booking.
    A date field holds `None` while its input is empty and otherwise the
    millisecond timestamp the entered day parses to. */
module BookingForm {
  import opened Types
  import opened Text

  /** Milliseconds in a day: 1000 * 60 * 60 * 24. */
  const DayMs: int := 86_400_000

  datatype FormData = FormData(
    checkIn: Option<int>,
    checkOut: Option<int>,
    numGuests: int,
    specialRequests: string)

  /** The form as the page first shows it. */
  const InitialForm := FormData(None, None, 1, "")

  /** The row `handleSubmit` inserts into the bookings table. */
  datatype NewBooking = NewBooking(
    userId: string,
    roomId: string,
    hotelId: string,
    checkIn: int,
    checkOut: int,
    numGuests: int,
    totalPrice: int,
    specialRequests: Option<string>,
    status: BookingStatus)

  /** What a submission leads to: the sign-in page, an error shown on the
      form, or an insert of the given row. */
  datatype Decision = SignInRequired | Invalid(message: string) | Submit(row: NewBooking)

  function Abs(x: int): nat { if x < 0 then -x else x }

  /** `calculateNights`: the whole days between the two dates, rounded up,
      measured on the absolute difference; 0 while either date is empty. */
  function Nights(checkIn: Option<int>, checkOut: Option<int>): (n: nat)
    ensures checkIn.None? || checkOut.None? ==> n == 0
    ensures checkIn.Some? && checkOut.Some? ==>
      var d := Abs(checkOut.value - checkIn.value);
      d <= n * DayMs && (n > 0 ==> (n - 1) * DayMs < d)
  {
    if checkIn.None? || checkOut.None? then 0
    else (Abs(checkOut.value - checkIn.value) + DayMs - 1) / DayMs
  }

  /** Swapping the two dates does not change the stay length. */
  lemma NightsSymmetric(a: Option<int>, b: Option<int>)
    ensures Nights(a, b) == Nights(b, a)
  {
    if a.Some? && b.Some? {
      assert Abs(b.value - a.value) == Abs(a.value - b.value);
    }
  }

  /** The ceiling is unique: any count bracketing the difference is it. */
  lemma NightsUnique(a: int, b: int, k: nat)
    requires Abs(b - a) <= k * DayMs
    requires k > 0 ==> (k - 1) * DayMs < Abs(b - a)
    ensures Nights(Some(a), Some(b)) == k
  {
  }

  /** Dates a whole number of days apart give exactly that many nights;
      in particular equal dates give none. */
  lemma NightsWholeDays(a: int, k: nat)
    ensures Nights(Some(a), Some(a + k * DayMs)) == k
    ensures Nights(Some(a), Some(a)) == 0
  {
    NightsUnique(a, a + k * DayMs, k);
    NightsUnique(a, a, 0);
  }

  /** A check-out any part of a day after check-in already counts a night. */
  lemma NightsPartialDay(a: int, ms: int)
    requires 0 < ms < DayMs
    ensures Nights(Some(a), Some(a + ms)) == 1
  {
    NightsUnique(a, a + ms, 1);
  }

  /** `calculateTotalPrice`: nothing before the room is loaded, otherwise the
      nights times the nightly price (both in cents). */
  function TotalPrice(room: Option<Room>, checkIn: Option<int>, checkOut: Option<int>): (total: int)
    ensures room.None? ==> total == 0
    ensures room.Some? ==> total == Nights(checkIn, checkOut) * room.value.pricePerNight
    ensures room.Some? && room.value.pricePerNight >= 0 ==> total >= 0
    ensures Nights(checkIn, checkOut) == 0 ==> total == 0
  {
    if room.None? then 0 else Nights(checkIn, checkOut) * room.value.pricePerNight
  }

  /** A stay of k whole days costs k nightly prices. */
  lemma TotalPriceWholeDays(room: Room, a: int, k: nat)
    ensures TotalPrice(Some(room), Some(a), Some(a + k * DayMs)) == k * room.pricePerNight
  {
    NightsWholeDays(a, k);
  }

  const MissingRoomMessage := "Room or hotel information is missing"
  const DateRangeMessage := "Check-out date must be after check-in date"

  function TooManyGuestsMessage(maxGuests: int): string
  {
    "Maximum " + IntToString(maxGuests) + " guests allowed for this room"
  }

  /** The checks of `handleSubmit`, in the order it makes them. */
  function Check(user: Option<string>, room: Option<Room>, hotel: Option<Hotel>, form: FormData): (d: Decision)
    ensures d.SignInRequired? <==> user.None?
    ensures d.Submit? <==>
      && user.Some? && room.Some? && hotel.Some?
      && form.numGuests <= room.value.maxGuests
      && Nights(form.checkIn, form.checkOut) >= 1
    ensures d.Submit? ==>
      && d.row.status == Pending
      && d.row.userId == user.value
      && d.row.roomId == room.value.id && d.row.hotelId == hotel.value.id
      && form.checkIn == Some(d.row.checkIn) && form.checkOut == Some(d.row.checkOut)
      && d.row.numGuests == form.numGuests
      && d.row.totalPrice == TotalPrice(room, form.checkIn, form.checkOut)
      && d.row.specialRequests == (if form.specialRequests == "" then None else Some(form.specialRequests))
    ensures d.Invalid? && user.Some? && (room.None? || hotel.None?) ==> d.message == MissingRoomMessage
  {
    if user.None? then SignInRequired
    else if room.None? || hotel.None? then Invalid(MissingRoomMessage)
    else if form.numGuests > room.value.maxGuests then Invalid(TooManyGuestsMessage(room.value.maxGuests))
    else if Nights(form.checkIn, form.checkOut) < 1 then Invalid(DateRangeMessage)
    else Submit(NewBooking(
      user.value, room.value.id, hotel.value.id,
      form.checkIn.value, form.checkOut.value, form.numGuests,
      TotalPrice(room, form.checkIn, form.checkOut),
      if form.specialRequests == "" then None else Some(form.specialRequests),
      Pending))
  }

  /** The guest count is checked before the dates: a request failing both
      reports the guest limit. */
  lemma GuestCheckComesFirst(user: string, room: Room, hotel: Hotel, form: FormData)
    requires form.numGuests > room.maxGuests
    ensures Check(Some(user), Some(room), Some(hotel), form) == Invalid(TooManyGuestsMessage(room.maxGuests))
  {
  }

  /** The guest limit is inclusive: exactly `max_guests` passes it, one more
      is refused whatever the dates. */
  lemma GuestLimitBoundary(user: string, room: Room, hotel: Hotel, form: FormData)
    requires Nights(form.checkIn, form.checkOut) >= 1
    ensures Check(Some(user), Some(room), Some(hotel), form.(numGuests := room.maxGuests)).Submit?
    ensures Check(Some(user), Some(room), Some(hotel), form.(numGuests := room.maxGuests + 1))
         == Invalid(TooManyGuestsMessage(room.maxGuests))
  {
  }

  /** Identical check-in and check-out days are refused with the date error. */
  lemma SameDayRefused(user: string, room: Room, hotel: Hotel, form: FormData, day: int)
    requires form.numGuests <= room.maxGuests
    requires form.checkIn == Some(day) && form.checkOut == Some(day)
    ensures Check(Some(user), Some(room), Some(hotel), form) == Invalid(DateRangeMessage)
  {
    NightsWholeDays(day, 0);
  }

  /** The room's availability flag plays no part in the checks: an
      unavailable room is booked like an available one. */
  lemma AvailabilityNotChecked(user: Option<string>, room: Room, hotel: Option<Hotel>, form: FormData)
    ensures Check(user, Some(room.(isAvailable := false)), hotel, form)
         == Check(user, Some(room.(isAvailable := true)), hotel, form)
  {
  }

  /** A three-night stay at 120.00 a night inserts a pending booking of 360.00. */
  lemma ThreeNightExample(user: string, room: Room, hotel: Hotel, day: int)
    requires room.pricePerNight == 12000 && room.maxGuests >= 1
    ensures var d := Check(Some(user), Some(room), Some(hotel), FormData(Some(day), Some(day + 3 * DayMs), 1, ""));
      d.Submit? && d.row.totalPrice == 36000 && d.row.status == Pending && d.row.specialRequests == None
  {
    NightsWholeDays(day, 3);
  }

  /** The page state `handleSubmit` reads and writes. */
  class BookingPage {
    var room: Option<Room>
    var hotel: Option<Hotel>
    var form: FormData
    var submitting: bool
    var success: bool
    var error: string

    /** The page once `loadRoomAndHotel` has finished, before any input. */
    constructor(room: Option<Room>, hotel: Option<Hotel>)
      ensures this.room == room && this.hotel == hotel && form == InitialForm
      ensures !submitting && !success && error == ""
    {
      this.room := room;
      this.hotel := hotel;
      form := InitialForm;
      submitting := false;
      success := false;
      error := "";
    }

    /** An edit of the form fields. */
    method SetForm(f: FormData)
      modifies this`form
      ensures form == f
    {
      form := f;
    }

    /** `handleSubmit`, returning the row it asks the backend to insert. The insert itself is a backend call: `insertError`
        is the error it reports, if any, and `defaultError` the translated
        'bookingError' text shown when that error has no message. */
    method HandleSubmit(user: Option<string>, insertError: Option<string>, defaultError: string)
      returns (attempted: Option<NewBooking>)
      modifies this`submitting, this`success, this`error
      ensures var d := Check(user, room, hotel, form);
        && (attempted.Some? <==> d.Submit?)
        && (d.Submit? ==> attempted.value == d.row)
      ensures match Check(user, room, hotel, form)
        case SignInRequired =>
          submitting == old(submitting) && success == old(success) && error == old(error)
        case Invalid(message) =>
          submitting == old(submitting) && success == old(success) && error == message
        case Submit(_) =>
          && !submitting
          && success == (insertError.None? || old(success))
          && error == (if insertError.None? then ""
                       else if insertError.value != "" then insertError.value
                       else defaultError)
    {
      attempted := None;
      if user.None? {
        return;
      }
      if room.None? || hotel.None? {
        error := MissingRoomMessage;
        return;
      }
      if form.numGuests > room.value.maxGuests {
        error := TooManyGuestsMessage(room.value.maxGuests);
        return;
      }
      var nights := Nights(form.checkIn, form.checkOut);
      if nights < 1 {
        error := DateRangeMessage;
        return;
      }
      submitting := true;
      error := "";
      attempted := Some(NewBooking(
        user.value, room.value.id, hotel.value.id,
        form.checkIn.value, form.checkOut.value, form.numGuests,
        TotalPrice(room, form.checkIn, form.checkOut),
        if form.specialRequests == "" then None else Some(form.specialRequests),
        Pending));
      if insertError.Some? {
        error := if insertError.value != "" then insertError.value else defaultError;
      } else {
        success := true;
      }
      submitting := false;
    }
  }
}
