/** The guest's booking list of src/pages/MyBookingsPage.tsx: its three
    filters, the status badge, and cancellation. `today` is the timestamp
    of the current local midnight. */
module MyBookings {
  import opened Types
  import opened Lists
  import opened BookingTotals

  datatype BookingFilter = All | Upcoming | Past

  predicate IsUpcoming(today: int, b: Booking)
  {
    b.checkIn >= today && b.status != Canceled
  }

  predicate IsPast(today: int, b: Booking)
  {
    b.checkOut < today || b.status == Completed
  }

  /** `getFilteredBookings`. */
  function FilteredBookings(filter: BookingFilter, bookings: seq<Booking>, today: int): (r: seq<Booking>)
    ensures IsSubsequence(r, bookings)
    ensures filter == All ==> r == bookings
    ensures filter == Upcoming ==>
      forall b :: b in r <==> b in bookings && IsUpcoming(today, b)
    ensures filter == Upcoming ==>
      forall b {:trigger multiset(r)[b]} :: b in bookings && IsUpcoming(today, b) ==> multiset(r)[b] == multiset(bookings)[b]
    ensures filter == Past ==>
      forall b :: b in r <==> b in bookings && IsPast(today, b)
    ensures filter == Past ==>
      forall b {:trigger multiset(r)[b]} :: b in bookings && IsPast(today, b) ==> multiset(r)[b] == multiset(bookings)[b]
  {
    match filter
    case Upcoming => Filter((b: Booking) => IsUpcoming(today, b), bookings)
    case Past => Filter((b: Booking) => IsPast(today, b), bookings)
    case All => SubsequenceReflexive(bookings); bookings
  }

  /** A canceled booking is never upcoming, and a completed one is always
      past, whatever its dates. */
  lemma StatusOverridesDates(bookings: seq<Booking>, today: int, b: Booking)
    requires b in bookings
    ensures b.status == Canceled ==> b !in FilteredBookings(Upcoming, bookings, today)
    ensures b.status == Completed ==> b in FilteredBookings(Past, bookings, today)
  {
  }

  /** An unfinished booking that starts today or later is upcoming and not
      past, provided it also ends today or later. */
  lemma UpcomingNotPast(bookings: seq<Booking>, today: int, b: Booking)
    requires b in bookings && b.status != Completed && b.status != Canceled
    requires today <= b.checkIn && today <= b.checkOut
    ensures b in FilteredBookings(Upcoming, bookings, today)
    ensures b !in FilteredBookings(Past, bookings, today)
  {
  }

  const DefaultColor := "bg-gray-100 text-gray-800"

  const StatusColors: map<string, string> := map[
    "pending" := "bg-yellow-100 text-yellow-800",
    "confirmed" := "bg-green-100 text-green-800",
    "checked_in" := "bg-blue-100 text-blue-800",
    "completed" := "bg-gray-100 text-gray-800",
    "canceled" := "bg-red-100 text-red-800"
  ]

  /** `getStatusColor`: the badge classes for a status string, grey for any
      string that is not one of the five statuses. Names a JavaScript object
      inherits (such as "constructor") are not modelled. */
  function StatusColor(status: string): (classes: string)
    ensures (forall s :: status != StatusName(s)) ==> classes == DefaultColor
    ensures classes == DefaultColor <==>
      status == StatusName(Completed) || forall s :: status != StatusName(s)
  {
    assert StatusColors.Keys == {StatusName(Pending), StatusName(Confirmed), StatusName(CheckedIn),
                                 StatusName(Completed), StatusName(Canceled)};
    if status in StatusColors && StatusColors[status] != "" then StatusColors[status] else DefaultColor
  }

  /** The five statuses get the listed colours; only completed shares the
      default grey, and the other four are pairwise distinct. */
  lemma StatusColorTable()
    ensures StatusColor(StatusName(Pending)) == "bg-yellow-100 text-yellow-800"
    ensures StatusColor(StatusName(Confirmed)) == "bg-green-100 text-green-800"
    ensures StatusColor(StatusName(CheckedIn)) == "bg-blue-100 text-blue-800"
    ensures StatusColor(StatusName(Completed)) == DefaultColor
    ensures StatusColor(StatusName(Canceled)) == "bg-red-100 text-red-800"
  {
  }

  /** The cancel button is rendered only for a pending booking. */
  predicate CancelOffered(b: Booking)
  {
    b.status == Pending
  }

  /** How many bookings carry `id`. */
  function IdCount(bs: seq<Booking>, id: string): (n: nat)
    ensures n <= |bs|
    ensures n == 0 <==> forall b :: b in bs ==> b.id != id
  {
    var kept := Filter((b: Booking) => b.id == id, bs);
    assert |kept| > 0 ==> kept[0] in kept;
    |kept|
  }

  /** The first booking adds one to the id count exactly when it carries
      that id. */
  lemma IdCountStep(bs: seq<Booking>, id: string)
    requires bs != []
    ensures IdCount(bs, id) == (if bs[0].id == id then 1 else 0) + IdCount(bs[1..], id)
  {
  }

  /** Cancelling bookings that are all pending lowers the pending count by
      their number. */
  lemma {:induction false} CancelLowersPending(bs: seq<Booking>, id: string)
    requires forall b :: b in bs && b.id == id ==> CancelOffered(b)
    ensures CountStatus(SetStatus(bs, id, Canceled), Pending) == CountStatus(bs, Pending) - IdCount(bs, id)
  {
    if bs != [] {
      var r := SetStatus(bs, id, Canceled);
      var tail := bs[1..];
      assert forall b :: b in tail ==> b in bs;
      CancelLowersPending(tail, id);
      SetStatusTail(bs, id, Canceled);
      assert bs[0] in bs;
      CountStatusStep(r, Pending);
      CountStatusStep(bs, Pending);
      IdCountStep(bs, id);
    }
  }

  /** Cancelling bookings that are all pending raises the canceled count by
      their number. */
  lemma {:induction false} CancelRaisesCanceled(bs: seq<Booking>, id: string)
    requires forall b :: b in bs && b.id == id ==> CancelOffered(b)
    ensures CountStatus(SetStatus(bs, id, Canceled), Canceled) == CountStatus(bs, Canceled) + IdCount(bs, id)
  {
    if bs != [] {
      var r := SetStatus(bs, id, Canceled);
      var tail := bs[1..];
      assert forall b :: b in tail ==> b in bs;
      CancelRaisesCanceled(tail, id);
      SetStatusTail(bs, id, Canceled);
      assert bs[0] in bs;
      CountStatusStep(r, Canceled);
      CountStatusStep(bs, Canceled);
      IdCountStep(bs, id);
    }
  }

  /** The pending-only cancel rule: when every booking with `id` offers the
      button, cancelling changes exactly those bookings, each from pending
      to canceled, and moves their number from the pending count to the
      canceled count. */
  lemma CancelOnlyFromPending(bs: seq<Booking>, id: string)
    requires forall b :: b in bs && b.id == id ==> CancelOffered(b)
    ensures var r := SetStatus(bs, id, Canceled);
      forall i :: 0 <= i < |bs| ==>
        && (r[i] != bs[i] <==> bs[i].id == id)
        && (bs[i].id == id ==> bs[i].status == Pending && r[i].status == Canceled)
    ensures CountStatus(SetStatus(bs, id, Canceled), Pending) == CountStatus(bs, Pending) - IdCount(bs, id)
    ensures CountStatus(SetStatus(bs, id, Canceled), Canceled) == CountStatus(bs, Canceled) + IdCount(bs, id)
  {
    forall i | 0 <= i < |bs| && bs[i].id == id
      ensures bs[i].status == Pending
    {
      assert bs[i] in bs;
    }
    CancelLowersPending(bs, id);
    CancelRaisesCanceled(bs, id);
  }

  /** The list page's state: the signed-in guest's bookings, newest first,
      and the selected filter. */
  class MyBookingsPage {
    var bookings: seq<Booking>
    var filter: BookingFilter
    var loading: bool

    constructor()
      ensures bookings == [] && filter == All && loading
    {
      bookings := [];
      filter := All;
      loading := true;
    }

    /** What the page lists. */
    function Shown(today: int): (r: seq<Booking>)
      reads this
      ensures IsSubsequence(r, bookings)
    {
      FilteredBookings(filter, bookings, today)
    }

    method SetFilter(f: BookingFilter)
      modifies this`filter
      ensures filter == f
    {
      filter := f;
    }

    /** `loadBookings`: `rows` is the answer of the query for the guest's
        bookings; on an error the list is kept. */
    method LoadBookings(rows: Fetch<Booking>)
      modifies this`bookings, this`loading
      ensures bookings == (if rows.Rows? then rows.rows else old(bookings))
      ensures !loading
    {
      if rows.Rows? {
        bookings := rows.rows;
      }
      loading := false;
    }

    /** `cancelBooking`: after the guest confirms and the write succeeds,
        the reloaded list shows the booking with that id canceled. The
        method does not check the status itself; only pending bookings
        offer the button. */
    method CancelBooking(id: string, confirmed: bool, writeOk: bool)
      modifies this`bookings
      ensures bookings == if confirmed && writeOk then SetStatus(old(bookings), id, Canceled) else old(bookings)
    {
      if !confirmed {
        return;
      }
      if writeOk {
        bookings := SetStatus(bookings, id, Canceled);
      }
    }
  }

  /** Once canceled, no booking with that id is upcoming any more, and the
      other bookings keep their place in the upcoming list. */
  lemma {:induction false} CanceledLeavesUpcoming(bookings: seq<Booking>, id: string, today: int)
    ensures forall b :: b in FilteredBookings(Upcoming, SetStatus(bookings, id, Canceled), today) ==> b.id != id
    ensures FilteredBookings(Upcoming, SetStatus(bookings, id, Canceled), today)
         == Filter((b: Booking) => b.id != id && IsUpcoming(today, b), bookings)
  {
    var after := SetStatus(bookings, id, Canceled);
    if bookings != [] {
      CanceledLeavesUpcoming(bookings[1..], id, today);
      assert SetStatus(bookings, id, Canceled)[1..] == SetStatus(bookings[1..], id, Canceled);
    } else {
      assert after == [];
    }
  }
}
