/** The hotel owner's dashboard of src/pages/OwnerDashboardPage.tsx: the
    owner's hotels, the bookings made at them, and the three figures shown
    above them. Backend queries are modelled as filters over the table they
    read. */
module OwnerDashboard {
  import opened Types
  import opened Lists
  import opened BookingTotals
  import opened HotelRows

  datatype Analytics = Analytics(totalRevenue: int, totalBookings: nat, activeHotels: nat)

  const InitialAnalytics := Analytics(0, 0, 0)

  /** `loadHotels`'s update: only the active-hotel count changes. */
  function WithHotels(a: Analytics, hs: seq<Hotel>): (r: Analytics)
    ensures r.(activeHotels := a.activeHotels) == a
    ensures r.activeHotels <= |hs|
    ensures r.activeHotels == |hs| <==> forall h :: h in hs ==> h.isActive
  {
    a.(activeHotels := CountActive(hs))
  }

  /** `loadBookings`'s update: revenue and booking count, nothing else. */
  function WithBookings(a: Analytics, bs: seq<Booking>): (r: Analytics)
    ensures r.activeHotels == a.activeHotels
    ensures r.totalBookings == |bs|
    ensures r.totalRevenue == SumPrices(Filter(NotCanceled, bs))
    ensures (forall b :: b in bs ==> b.totalPrice >= 0) ==> 0 <= r.totalRevenue
  {
    RevenueNonNegative(bs);
    a.(totalRevenue := Revenue(bs), totalBookings := |bs|)
  }

  lemma RevenueNonNegative(bs: seq<Booking>)
    ensures (forall b :: b in bs ==> b.totalPrice >= 0) ==> 0 <= Revenue(bs)
  {
    if forall b :: b in bs ==> b.totalPrice >= 0 {
      RevenueAtMostAllPrices(bs);
    }
  }

  /** The two loads run concurrently; their updates commute, so the figures
      do not depend on which answer arrives first. */
  lemma UpdatesCommute(a: Analytics, hs: seq<Hotel>, bs: seq<Booking>)
    ensures WithBookings(WithHotels(a, hs), bs) == WithHotels(WithBookings(a, bs), hs)
  {
  }

  /** `.eq('owner_id', ownerId)` on the hotels table. */
  function OwnedHotels(table: seq<Hotel>, ownerId: string): (r: seq<Hotel>)
    ensures forall h :: h in r <==> h in table && h.ownerId == ownerId
    ensures forall h {:trigger multiset(r)[h]} :: h in table && h.ownerId == ownerId ==> multiset(r)[h] == multiset(table)[h]
    ensures IsSubsequence(r, table)
  {
    Filter((h: Hotel) => h.ownerId == ownerId, table)
  }

  function HotelIds(hs: seq<Hotel>): set<string>
  {
    set h | h in hs :: h.id
  }

  /** `.in('hotel_id', ids)` on the bookings table. */
  function BookingsAt(table: seq<Booking>, ids: set<string>): (r: seq<Booking>)
    ensures forall b :: b in r <==> b in table && b.hotelId in ids
    ensures forall b {:trigger multiset(r)[b]} :: b in table && b.hotelId in ids ==> multiset(r)[b] == multiset(table)[b]
    ensures IsSubsequence(r, table)
  {
    Filter((b: Booking) => b.hotelId in ids, table)
  }

  /** The bookings the dashboard means to show: those at the owner's hotels. */
  function OwnerBookings(ownerId: string, hotelTable: seq<Hotel>, bookingTable: seq<Booking>): (r: seq<Booking>)
    ensures forall b :: b in r <==>
      b in bookingTable && exists h :: h in hotelTable && h.ownerId == ownerId && h.id == b.hotelId
  {
    var owned := OwnedHotels(hotelTable, ownerId);
    assert forall h :: h in owned ==> h.id in HotelIds(owned);
    BookingsAt(bookingTable, HotelIds(owned))
  }

  /** The bookings the first load actually fetches: `loadBookings` starts
      alongside `loadHotels` and reads the `hotels` state of the first
      render, which is still empty. */
  function MountBookingsAsWritten(ownerId: string, hotelTable: seq<Hotel>, bookingTable: seq<Booking>): (r: seq<Booking>)
    ensures forall b :: b in r <==> b in bookingTable && b.hotelId in HotelIds([])
  {
    var hotelsAtFirstRender: seq<Hotel> := [];
    BookingsAt(bookingTable, HotelIds(hotelsAtFirstRender))
  }

  /** As written, the mount's first load never fetches a booking, whatever
      the tables hold. */
  lemma MountLoadsNoBookings(ownerId: string, hotelTable: seq<Hotel>, bookingTable: seq<Booking>)
    ensures MountBookingsAsWritten(ownerId, hotelTable, bookingTable) == []
  {
  }

  /** One owner, one hotel, one pending booking of 100.00 at it: the
      dashboard means to show one booking and 100.00 of revenue, but the
      first load fetches none. */
  lemma MountMissesOwnersBooking()
    ensures var hotel := Hotel("h1", "o1", "Lumiere", "Paris", "France", "1 Rue", 4.5, 4, true);
      var booking := Booking("b1", "u1", "r1", "h1", 0, 86_400_000, 2, 10000, Pending, None);
      && OwnerBookings("o1", [hotel], [booking]) == [booking]
      && Revenue(OwnerBookings("o1", [hotel], [booking])) == 10000
      && MountBookingsAsWritten("o1", [hotel], [booking]) == []
  {
    var hotel := Hotel("h1", "o1", "Lumiere", "Paris", "France", "1 Rue", 4.5, 4, true);
    var booking := Booking("b1", "u1", "r1", "h1", 0, 86_400_000, 2, 10000, Pending, None);
    var r := OwnerBookings("o1", [hotel], [booking]);
    assert booking in r;
    assert |r| <= 1;
    assert r == [booking];
    RevenueAddBooking([], booking);
    assert [] + [booking] == [booking];
    MountLoadsNoBookings("o1", [hotel], [booking]);
  }

  /** Reloading the owner's hotels after a write of the active flag sees
      the list with that write applied. */
  lemma {:induction false} ToggleThenReload(table: seq<Hotel>, ownerId: string, id: string, v: bool)
    ensures OwnedHotels(SetActive(table, id, v), ownerId) == SetActive(OwnedHotels(table, ownerId), id, v)
  {
    if table != [] {
      var tail := table[1..];
      var head := SetActive([table[0]], id, v);
      var written := SetActive(table, id, v);
      SetActiveSplit(table, id, v);
      assert written[0] == head[0] && written[1..] == SetActive(tail, id, v);
      ToggleThenReload(tail, ownerId, id, v);
      var rest := OwnedHotels(tail, ownerId);
      if table[0].ownerId == ownerId {
        assert OwnedHotels(table, ownerId) == [table[0]] + rest;
        SetActiveSplit([table[0]] + rest, id, v);
        assert ([table[0]] + rest)[1..] == rest;
      }
    }
  }

  /** The intended bookings are the `.in` query over the owner's hotel ids. */
  lemma OwnerBookingsAreBookingsAt(ownerId: string, hotelTable: seq<Hotel>, bookingTable: seq<Booking>)
    ensures OwnerBookings(ownerId, hotelTable, bookingTable)
         == BookingsAt(bookingTable, HotelIds(OwnedHotels(hotelTable, ownerId)))
  {
  }

  predicate IsOwner(user: Option<string>, profile: Option<Profile>)
  {
    user.Some? && profile.Some? && profile.value.role == Owner
  }

  datatype View = AccessDenied | Spinner | Dashboard

  /** The page's first two render branches: the role gate, then the spinner. */
  function PageView(user: Option<string>, profile: Option<Profile>, loading: bool): (v: View)
    ensures v == AccessDenied <==> !IsOwner(user, profile)
    ensures v == Dashboard <==> IsOwner(user, profile) && !loading
  {
    if !IsOwner(user, profile) then AccessDenied else if loading then Spinner else Dashboard
  }

  /** An admin, a client, and anyone signed out (even holding an owner
      profile) are all turned away. */
  lemma OnlyOwnersGetIn(user: Option<string>, profile: Option<Profile>, loading: bool)
    requires profile.Some? && profile.value.role != Owner
    ensures PageView(user, profile, loading) == AccessDenied
    ensures PageView(None, Some(profile.value.(role := Owner)), loading) == AccessDenied
  {
  }

  class OwnerDashboardPage {
    var hotels: seq<Hotel>
    var bookings: seq<Booking>
    var analytics: Analytics
    var loading: bool

    /** The figures always describe the lists on screen. */
    predicate Valid()
      reads this
    {
      analytics == Analytics(Revenue(bookings), |bookings|, CountActive(hotels))
    }

    constructor()
      ensures Valid()
      ensures hotels == [] && bookings == [] && analytics == InitialAnalytics && loading
    {
      hotels := [];
      bookings := [];
      analytics := InitialAnalytics;
      loading := true;
    }

    /** `loadHotels` for the signed-in owner; `table` is the hotels table,
        or the error the query reported, in which case nothing changes. */
    method LoadHotels(ownerId: string, table: Fetch<Hotel>)
      requires Valid()
      modifies this`hotels, this`analytics
      ensures Valid()
      ensures table.Rows? ==> hotels == OwnedHotels(table.rows, ownerId)
      ensures table.Rows? ==> analytics == WithHotels(old(analytics), hotels)
      ensures table.Failed? ==> hotels == old(hotels) && analytics == old(analytics)
    {
      if table.Rows? {
        hotels := OwnedHotels(table.rows, ownerId);
        analytics := WithHotels(analytics, hotels);
      }
    }

    /** `loadBookings` for the hotels whose ids it is given. */
    method LoadBookings(ids: set<string>, table: Fetch<Booking>)
      requires Valid()
      modifies this`bookings, this`analytics
      ensures Valid()
      ensures table.Rows? ==> bookings == BookingsAt(table.rows, ids)
      ensures table.Rows? ==> analytics == WithBookings(old(analytics), bookings)
      ensures table.Failed? ==> bookings == old(bookings) && analytics == old(analytics)
    {
      if table.Rows? {
        bookings := BookingsAt(table.rows, ids);
        analytics := WithBookings(analytics, bookings);
      }
    }

    /** Mounting the page: loads only for an owner, and (as intended rather
        than as written, see MountBookingsAsWritten) asks for the bookings of
        the hotels just loaded. */
    method Open(user: Option<string>, profile: Option<Profile>, hotelTable: Fetch<Hotel>, bookingTable: Fetch<Booking>)
      returns (view: View)
      requires Valid()
      modifies this
      ensures Valid()
      ensures view == PageView(user, profile, loading)
      ensures !IsOwner(user, profile) ==>
        hotels == old(hotels) && bookings == old(bookings) && analytics == old(analytics) && loading == old(loading)
      ensures IsOwner(user, profile) ==> !loading
      ensures IsOwner(user, profile) ==>
        && hotels == (if hotelTable.Rows? then OwnedHotels(hotelTable.rows, user.value) else old(hotels))
        && bookings == (if bookingTable.Rows? then BookingsAt(bookingTable.rows, HotelIds(hotels)) else old(bookings))
      ensures IsOwner(user, profile) && hotelTable.Rows? && bookingTable.Rows? ==>
        && hotels == OwnedHotels(hotelTable.rows, user.value)
        && bookings == OwnerBookings(user.value, hotelTable.rows, bookingTable.rows)
        && analytics == WithBookings(WithHotels(old(analytics), hotels), bookings)
    {
      if IsOwner(user, profile) {
        LoadHotels(user.value, hotelTable);
        LoadBookings(HotelIds(hotels), bookingTable);
        if hotelTable.Rows? && bookingTable.Rows? {
          OwnerBookingsAreBookingsAt(user.value, hotelTable.rows, bookingTable.rows);
        }
        loading := false;
      }
      view := PageView(user, profile, loading);
    }

    /** `toggleHotelStatus`: writes the negation of the flag the row shows,
        then reloads the owner's hotels (see ToggleThenReload). */
    method ToggleHotelStatus(hotelId: string, shown: bool, writeOk: bool)
      requires Valid()
      modifies this`hotels, this`analytics
      ensures Valid()
      ensures hotels == if writeOk then SetActive(old(hotels), hotelId, !shown) else old(hotels)
      ensures analytics == if writeOk then WithHotels(old(analytics), hotels) else old(analytics)
    {
      if writeOk {
        hotels := SetActive(hotels, hotelId, !shown);
        analytics := WithHotels(analytics, hotels);
      }
    }

    /** `updateBookingStatus`: any of the five statuses may be written. */
    method UpdateBookingStatus(bookingId: string, status: BookingStatus, writeOk: bool)
      requires Valid()
      modifies this`bookings, this`analytics
      ensures Valid()
      ensures bookings == if writeOk then SetStatus(old(bookings), bookingId, status) else old(bookings)
      ensures analytics == if writeOk then WithBookings(old(analytics), bookings) else old(analytics)
    {
      if writeOk {
        bookings := SetStatus(bookings, bookingId, status);
        analytics := WithBookings(analytics, bookings);
      }
    }
  }
}
