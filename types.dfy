/** The records and enumerations shared by every page (src/lib/supabase.ts).
    Timestamps are integer milliseconds, money is integer cents, and a guest
    rating is an exact real. Fields the core never reads (images, created_at,
    descriptions of rooms, ...) are omitted. */
module Types {

  datatype Option<T> = None | Some(value: T)

  /** The answer of one backend query: the rows, or the error it reported. */
  datatype Fetch<T> = Rows(rows: seq<T>) | Failed(message: string)

  datatype UserRole = Client | Owner | Admin

  datatype BookingStatus = Pending | Confirmed | CheckedIn | Completed | Canceled

  /** The value a status takes in the database and in the markup. */
  function StatusName(s: BookingStatus): (name: string)
    ensures name != ""
  {
    match s
    case Pending => "pending"
    case Confirmed => "confirmed"
    case CheckedIn => "checked_in"
    case Completed => "completed"
    case Canceled => "canceled"
  }

  /** The five stored names are pairwise distinct, so a stored name
      determines the status it was written from. */
  lemma StatusNameInjective(s: BookingStatus, t: BookingStatus)
    ensures StatusName(s) == StatusName(t) <==> s == t
  {
  }

  datatype Profile = Profile(id: string, role: UserRole, fullName: string, phone: Option<string>)

  datatype Hotel = Hotel(
    id: string,
    ownerId: string,
    name: string,
    city: string,
    country: string,
    address: string,
    rating: real,
    starRating: int,
    isActive: bool)

  datatype Room = Room(
    id: string,
    hotelId: string,
    title: string,
    pricePerNight: int,
    maxGuests: int,
    isAvailable: bool)

  datatype Booking = Booking(
    id: string,
    userId: string,
    roomId: string,
    hotelId: string,
    checkIn: int,
    checkOut: int,
    numGuests: int,
    totalPrice: int,
    status: BookingStatus,
    specialRequests: Option<string>)
}
