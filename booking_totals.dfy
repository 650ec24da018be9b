/** The booking aggregates of the dashboards: revenue over the bookings that
    are not canceled, which src/pages/AdminDashboardPage.tsx and
    src/pages/OwnerDashboardPage.tsx compute the same way, and the per-status
    counts, which only the administrator's page shows. */
module BookingTotals {
  import opened Types
  import opened Lists

  predicate NotCanceled(b: Booking) { b.status != Canceled }

  /** `reduce((sum, b) => sum + b.total_price, 0)`: a left fold from 0. */
  function SumPrices(bs: seq<Booking>): (total: int)
    ensures bs == [] ==> total == 0
    ensures |bs| == 1 ==> total == bs[0].totalPrice
  {
    if bs == [] then 0 else SumPrices(bs[..|bs| - 1]) + bs[|bs| - 1].totalPrice
  }

  lemma {:induction false} SumPricesAppend(a: seq<Booking>, b: seq<Booking>)
    ensures SumPrices(a + b) == SumPrices(a) + SumPrices(b)
    decreases |b|
  {
    if b == [] {
      assert a + b == a;
    } else {
      assert (a + b)[..|a + b| - 1] == a + b[..|b| - 1];
      SumPricesAppend(a, b[..|b| - 1]);
    }
  }

  lemma {:induction false} SumPricesNonNegative(bs: seq<Booking>)
    requires forall b :: b in bs ==> b.totalPrice >= 0
    ensures SumPrices(bs) >= 0
    decreases |bs|
  {
    if bs != [] {
      assert forall b :: b in bs[..|bs| - 1] ==> b in bs;
      SumPricesNonNegative(bs[..|bs| - 1]);
    }
  }

  /** `totalRevenue`: the summed price of every booking not canceled. */
  function Revenue(bs: seq<Booking>): (r: int)
    ensures (forall b :: b in bs ==> b.status == Canceled) ==> r == 0
    ensures (forall b :: b in bs ==> b.status != Canceled) ==> r == SumPrices(bs)
  {
    FilterAllOrNone(NotCanceled, bs);
    SumPrices(Filter(NotCanceled, bs))
  }

  /** Revenue is additive over a split of the bookings. */
  lemma RevenueAppend(a: seq<Booking>, b: seq<Booking>)
    ensures Revenue(a + b) == Revenue(a) + Revenue(b)
  {
    FilterAppend(NotCanceled, a, b);
    SumPricesAppend(Filter(NotCanceled, a), Filter(NotCanceled, b));
  }

  /** One more booking adds its price to the revenue unless it is canceled. */
  lemma RevenueAddBooking(bs: seq<Booking>, b: Booking)
    ensures Revenue(bs + [b]) == Revenue(bs) + (if b.status == Canceled then 0 else b.totalPrice)
  {
    RevenueAppend(bs, [b]);
    assert Filter(NotCanceled, [b]) == if NotCanceled(b) then [b] else [];
    assert SumPrices([b]) == b.totalPrice by {
      assert [b][..0] == [];
    }
  }

  /** With no negative prices, revenue never exceeds the summed price of
      every booking, canceled ones included. */
  lemma {:induction false} RevenueAtMostAllPrices(bs: seq<Booking>)
    requires forall b :: b in bs ==> b.totalPrice >= 0
    ensures 0 <= Revenue(bs) <= SumPrices(bs)
    decreases |bs|
  {
    if bs == [] {
    } else {
      var init := bs[..|bs| - 1];
      var last := bs[|bs| - 1];
      assert bs == init + [last];
      assert forall b :: b in init ==> b in bs;
      RevenueAtMostAllPrices(init);
      RevenueAddBooking(init, last);
    }
  }

  /** `bookings.filter(b => b.status === s).length`. */
  function CountStatus(bs: seq<Booking>, s: BookingStatus): (n: nat)
    ensures n <= |bs|
    ensures n == 0 <==> forall b :: b in bs ==> b.status != s
  {
    var kept := Filter((b: Booking) => b.status == s, bs);
    assert |kept| > 0 ==> kept[0] in kept;
    |kept|
  }

  /** The five per-status counts add up to the number of bookings. */
  lemma {:induction false} StatusCountsPartition(bs: seq<Booking>)
    ensures CountStatus(bs, Pending) + CountStatus(bs, Confirmed) + CountStatus(bs, CheckedIn)
          + CountStatus(bs, Completed) + CountStatus(bs, Canceled) == |bs|
  {
    if bs != [] {
      StatusCountsPartition(bs[1..]);
      CountStatusStep(bs, Pending);
      CountStatusStep(bs, Confirmed);
      CountStatusStep(bs, CheckedIn);
      CountStatusStep(bs, Completed);
      CountStatusStep(bs, Canceled);
    }
  }

  /** The first booking adds one to the count of its own status only. */
  lemma CountStatusStep(bs: seq<Booking>, s: BookingStatus)
    requires bs != []
    ensures CountStatus(bs, s) == (if bs[0].status == s then 1 else 0) + CountStatus(bs[1..], s)
  {
  }

  /** `update({ status }).eq('id', id)`: every booking with that id takes the
      new status, and nothing else changes. No transition is refused. */
  function SetStatus(bs: seq<Booking>, id: string, s: BookingStatus): (r: seq<Booking>)
    ensures |r| == |bs|
    ensures forall i :: 0 <= i < |bs| ==>
      && r[i].(status := bs[i].status) == bs[i]
      && r[i].status == (if bs[i].id == id then s else bs[i].status)
  {
    seq(|bs|, i requires 0 <= i < |bs| => if bs[i].id == id then bs[i].(status := s) else bs[i])
  }

  /** The write acts on each booking separately: the list's tail is written
      as a list of its own. */
  lemma SetStatusTail(bs: seq<Booking>, id: string, s: BookingStatus)
    requires bs != []
    ensures SetStatus(bs, id, s)[1..] == SetStatus(bs[1..], id, s)
  {
  }

  /** Writing a status twice keeps the second, so any status can follow any
      other, including one out of completed or canceled. */
  lemma SetStatusLastWins(bs: seq<Booking>, id: string, s: BookingStatus, t: BookingStatus)
    ensures SetStatus(SetStatus(bs, id, s), id, t) == SetStatus(bs, id, t)
  {
  }
}
