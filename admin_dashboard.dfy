/** The platform administrator's dashboard of src/pages/AdminDashboardPage.tsx:
    every profile, hotel and booking, the four headline figures, the role
    and status breakdowns, and the management actions. */
module AdminDashboard {
  import opened Types
  import opened Lists
  import opened BookingTotals
  import opened HotelRows

  datatype Analytics = Analytics(totalUsers: nat, totalHotels: nat, totalBookings: nat, totalRevenue: int)

  const InitialAnalytics := Analytics(0, 0, 0, 0)

  /** `loadUsers`'s update: the user count and nothing else. */
  function WithUsers(a: Analytics, users: seq<Profile>): (r: Analytics)
    ensures r.(totalUsers := a.totalUsers) == a
    ensures r.totalUsers == |users|
  {
    a.(totalUsers := |users|)
  }

  /** `loadHotels`'s update: every hotel counts, active or not. */
  function WithHotels(a: Analytics, hotels: seq<Hotel>): (r: Analytics)
    ensures r.(totalHotels := a.totalHotels) == a
    ensures r.totalHotels == |hotels|
  {
    a.(totalHotels := |hotels|)
  }

  /** `loadBookings`'s update: every booking counts, but only bookings not
      canceled bring revenue. */
  function WithBookings(a: Analytics, bookings: seq<Booking>): (r: Analytics)
    ensures r.totalUsers == a.totalUsers && r.totalHotels == a.totalHotels
    ensures r.totalBookings == |bookings|
    ensures r.totalRevenue == SumPrices(Filter(NotCanceled, bookings))
  {
    a.(totalBookings := |bookings|, totalRevenue := Revenue(bookings))
  }

  /** The three loads run concurrently; the figures come out the same in
      whichever order their answers arrive. */
  lemma UpdatesCommute(a: Analytics, us: seq<Profile>, hs: seq<Hotel>, bs: seq<Booking>)
    ensures var final := WithBookings(WithHotels(WithUsers(a, us), hs), bs);
      && final == WithUsers(WithHotels(WithBookings(a, bs), hs), us)
      && final == WithHotels(WithUsers(WithBookings(a, bs), us), hs)
      && final == WithBookings(WithUsers(WithHotels(a, hs), us), bs)
      && final == Analytics(|us|, |hs|, |bs|, Revenue(bs))
  {
  }

  /** A canceled booking adds one to the booking count and nothing to the
      revenue. */
  lemma CanceledBookingCountsButEarnsNothing(a: Analytics, bs: seq<Booking>, b: Booking)
    requires b.status == Canceled
    ensures WithBookings(a, bs + [b]).totalBookings == WithBookings(a, bs).totalBookings + 1
    ensures WithBookings(a, bs + [b]).totalRevenue == WithBookings(a, bs).totalRevenue
  {
    RevenueAddBooking(bs, b);
  }

  /** `users.filter(u => u.role === role).length`. */
  function CountRole(users: seq<Profile>, role: UserRole): (n: nat)
    ensures n <= |users|
  {
    |Filter((u: Profile) => u.role == role, users)|
  }

  /** Every profile has exactly one of the three roles, so the breakdown
      adds up to the user count. */
  lemma {:induction false} RoleCountsPartition(users: seq<Profile>)
    ensures CountRole(users, Client) + CountRole(users, Owner) + CountRole(users, Admin) == |users|
  {
    if users != [] {
      RoleCountsPartition(users[1..]);
    }
  }

  /** `update({ role }).eq('id', id)` on the profiles. */
  function SetRole(users: seq<Profile>, id: string, role: UserRole): (r: seq<Profile>)
    ensures |r| == |users|
    ensures forall i :: 0 <= i < |users| ==>
      && r[i].(role := users[i].role) == users[i]
      && r[i].role == (if users[i].id == id then role else users[i].role)
  {
    seq(|users|, i requires 0 <= i < |users| => if users[i].id == id then users[i].(role := role) else users[i])
  }

  /** `delete().eq('id', id)` on the hotels. */
  function RemoveHotel(hotels: seq<Hotel>, id: string): (r: seq<Hotel>)
    ensures forall h :: h in r <==> h in hotels && h.id != id
    ensures forall h {:trigger multiset(r)[h]} :: h in hotels && h.id != id ==> multiset(r)[h] == multiset(hotels)[h]
    ensures IsSubsequence(r, hotels)
  {
    Filter((h: Hotel) => h.id != id, hotels)
  }

  predicate IsAdmin(user: Option<string>, profile: Option<Profile>)
  {
    user.Some? && profile.Some? && profile.value.role == Admin
  }

  datatype View = AccessDenied | Spinner | Dashboard

  /** The page's first two render branches: the role gate, then the spinner. */
  function PageView(user: Option<string>, profile: Option<Profile>, loading: bool): (v: View)
    ensures v == AccessDenied <==> !IsAdmin(user, profile)
    ensures v == Dashboard <==> IsAdmin(user, profile) && !loading
  {
    if !IsAdmin(user, profile) then AccessDenied else if loading then Spinner else Dashboard
  }

  /** Being signed in is not enough: an owner or a client is turned away. */
  lemma OnlyAdminsGetIn(user: string, profile: Profile, loading: bool)
    requires profile.role != Admin
    ensures PageView(Some(user), Some(profile), loading) == AccessDenied
    ensures PageView(None, Some(profile.(role := Admin)), loading) == AccessDenied
  {
  }

  class AdminDashboardPage {
    var users: seq<Profile>
    var hotels: seq<Hotel>
    var bookings: seq<Booking>
    var analytics: Analytics
    var loading: bool

    /** The figures always describe the lists on screen. */
    predicate Valid()
      reads this
    {
      analytics == Analytics(|users|, |hotels|, |bookings|, Revenue(bookings))
    }

    constructor()
      ensures Valid()
      ensures users == [] && hotels == [] && bookings == []
      ensures analytics == InitialAnalytics && loading
    {
      users := [];
      hotels := [];
      bookings := [];
      analytics := InitialAnalytics;
      loading := true;
    }

    /** `loadUsers`: on an error the query throws before any update. */
    method LoadUsers(rows: Fetch<Profile>)
      requires Valid()
      modifies this`users, this`analytics
      ensures Valid()
      ensures users == if rows.Rows? then rows.rows else old(users)
      ensures analytics == if rows.Rows? then WithUsers(old(analytics), users) else old(analytics)
    {
      if rows.Rows? {
        users := rows.rows;
        analytics := WithUsers(analytics, users);
      }
    }

    /** `loadHotels`, active and inactive alike. */
    method LoadHotels(rows: Fetch<Hotel>)
      requires Valid()
      modifies this`hotels, this`analytics
      ensures Valid()
      ensures hotels == if rows.Rows? then rows.rows else old(hotels)
      ensures analytics == if rows.Rows? then WithHotels(old(analytics), hotels) else old(analytics)
    {
      if rows.Rows? {
        hotels := rows.rows;
        analytics := WithHotels(analytics, hotels);
      }
    }

    /** `loadBookings`, with the revenue fold. */
    method LoadBookings(rows: Fetch<Booking>)
      requires Valid()
      modifies this`bookings, this`analytics
      ensures Valid()
      ensures bookings == if rows.Rows? then rows.rows else old(bookings)
      ensures analytics == if rows.Rows? then WithBookings(old(analytics), bookings) else old(analytics)
    {
      if rows.Rows? {
        bookings := rows.rows;
        analytics := WithBookings(analytics, bookings);
      }
    }

    /** Mounting the page: the three loads happen only for a signed-in admin;
        whoever else arrives sees the access-denied view and nothing loads.
        A failed load does not stop the other two, so each list follows its
        own answer. */
    method Open(user: Option<string>, profile: Option<Profile>,
                userRows: Fetch<Profile>, hotelRows: Fetch<Hotel>, bookingRows: Fetch<Booking>)
      returns (view: View)
      requires Valid()
      modifies this
      ensures Valid()
      ensures view == PageView(user, profile, loading)
      ensures !IsAdmin(user, profile) ==>
        && users == old(users) && hotels == old(hotels) && bookings == old(bookings)
        && analytics == old(analytics) && loading == old(loading)
      ensures IsAdmin(user, profile) ==> !loading && view == Dashboard
      ensures IsAdmin(user, profile) ==>
        && users == (if userRows.Rows? then userRows.rows else old(users))
        && hotels == (if hotelRows.Rows? then hotelRows.rows else old(hotels))
        && bookings == (if bookingRows.Rows? then bookingRows.rows else old(bookings))
        && analytics == Analytics(|users|, |hotels|, |bookings|, Revenue(bookings))
    {
      if IsAdmin(user, profile) {
        LoadUsers(userRows);
        LoadHotels(hotelRows);
        LoadBookings(bookingRows);
        loading := false;
      }
      view := PageView(user, profile, loading);
    }

    /** `updateUserRole`, then the reload of the users. */
    method UpdateUserRole(userId: string, role: UserRole, writeOk: bool)
      requires Valid()
      modifies this`users, this`analytics
      ensures Valid()
      ensures users == if writeOk then SetRole(old(users), userId, role) else old(users)
      ensures analytics == old(analytics)
    {
      if writeOk {
        users := SetRole(users, userId, role);
        analytics := WithUsers(analytics, users);
      }
    }

    /** `toggleHotelStatus`: writes the negation of the flag the row shows,
        then reloads the hotels. */
    method ToggleHotelStatus(hotelId: string, shown: bool, writeOk: bool)
      requires Valid()
      modifies this`hotels, this`analytics
      ensures Valid()
      ensures hotels == if writeOk then SetActive(old(hotels), hotelId, !shown) else old(hotels)
      ensures analytics == old(analytics)
    {
      if writeOk {
        hotels := SetActive(hotels, hotelId, !shown);
        analytics := WithHotels(analytics, hotels);
      }
    }

    /** `deleteHotel`, after the administrator confirms. */
    method DeleteHotel(hotelId: string, confirmed: bool, writeOk: bool)
      requires Valid()
      modifies this`hotels, this`analytics
      ensures Valid()
      ensures hotels == if confirmed && writeOk then RemoveHotel(old(hotels), hotelId) else old(hotels)
      ensures analytics == if confirmed && writeOk then WithHotels(old(analytics), hotels) else old(analytics)
    {
      if !confirmed {
        return;
      }
      if writeOk {
        hotels := RemoveHotel(hotels, hotelId);
        analytics := WithHotels(analytics, hotels);
      }
    }

    /** `updateBookingStatus`: any of the five statuses may be written. */
    method UpdateBookingStatus(bookingId: string, status: BookingStatus, writeOk: bool)
      requires Valid()
      modifies this`bookings, this`analytics
      ensures Valid()
      ensures bookings == if writeOk then SetStatus(old(bookings), bookingId, status) else old(bookings)
      ensures analytics == if writeOk then WithBookings(old(analytics), bookings) else old(analytics)
    {
      if writeOk {
        bookings := SetStatus(bookings, bookingId, status);
        analytics := WithBookings(analytics, bookings);
      }
    }
  }
}
