/** The booking store: an ordered list of house bookings with a selection and
    the `loading`/`error` flags, the status getters, lookup by id, and the
    create, update, cancel and payment actions. */
module Bookings {
  import opened Options
  import opened Seqs
  import opened Entities

  datatype BookingStatus = Pending | Confirmed | BookingCancelled | BookingCompleted
  datatype PaymentStatus = PaymentPending | Paid | Refunded | Failed

  /** The status as the string the getters compare against. */
  function StatusName(s: BookingStatus): string {
    match s
    case Pending => "pending"
    case Confirmed => "confirmed"
    case BookingCancelled => "cancelled"
    case BookingCompleted => "completed"
  }

  datatype Guest = Guest(userId: string, name: string, email: string, phone: string)
  datatype StayDates = StayDates(checkIn: int, checkOut: int)

  /** A house booking apart from its id and timestamps; the guest count and
      the price are whole numbers here. */
  datatype BookingData = BookingData(
    houseId: string,
    guest: Guest,
    dates: StayDates,
    status: BookingStatus,
    guests: int,
    totalPrice: int,
    paymentStatus: PaymentStatus,
    notes: Option<string>)

  type Booking = Record<BookingData>

  /** `Partial<HouseBooking>` without the shared fields. */
  datatype BookingUpdates = BookingUpdates(
    houseId: Option<string>,
    guest: Option<Guest>,
    dates: Option<StayDates>,
    status: Option<BookingStatus>,
    guests: Option<int>,
    totalPrice: Option<int>,
    paymentStatus: Option<PaymentStatus>,
    notes: Option<string>)

  type BookingPatch = Patch<BookingUpdates>

  // ---------------------------------------------------------------- getters

  /** `bookings.filter(b => b.status === name)`: the getters activeBookings,
      pendingBookings and cancelledBookings are this function at "active",
      "pending" and "cancelled". */
  function BookingsWithStatusName(bookings: seq<Booking>, name: string): (r: seq<Booking>)
    ensures forall b :: b in r <==> b in bookings && StatusName(b.data.status) == name
    ensures |r| <= |bookings|
  {
    Filter(bookings, (b: Booking) => StatusName(b.data.status) == name)
  }

  /** "active" names no booking status, so activeBookings is always empty. */
  lemma ActiveBookingsAlwaysEmpty(bookings: seq<Booking>)
    ensures BookingsWithStatusName(bookings, "active") == []
  {
    var p := (b: Booking) => StatusName(b.data.status) == "active";
    forall b: Booking ensures !p(b) {
      assert StatusName(b.data.status)[0] != 'a';
    }
    FilterDropsAll(bookings, p);
  }

  /** pendingBookings and cancelledBookings keep the list order and have no
      booking in common. */
  lemma StatusGettersKeepOrderAndAreDisjoint(bookings: seq<Booking>)
    ensures IsSubsequence(BookingsWithStatusName(bookings, "pending"), bookings)
    ensures IsSubsequence(BookingsWithStatusName(bookings, "cancelled"), bookings)
    ensures forall b :: b in BookingsWithStatusName(bookings, "pending")
                     ==> b !in BookingsWithStatusName(bookings, "cancelled")
  {
    FilterIsSubsequence(bookings, (b: Booking) => StatusName(b.data.status) == "pending");
    FilterIsSubsequence(bookings, (b: Booking) => StatusName(b.data.status) == "cancelled");
  }

  // ---------------------------------------------------------------- updates

  /** `{...booking, ...updates, updatedAt: now}`. */
  function MergeBooking(booking: Booking, patch: BookingPatch, now: int): Booking {
    var u := patch.data;
    var d := booking.data;
    Merge(booking, patch, BookingData(
      u.houseId.GetOr(d.houseId),
      u.guest.GetOr(d.guest),
      u.dates.GetOr(d.dates),
      u.status.GetOr(d.status),
      u.guests.GetOr(d.guests),
      u.totalPrice.GetOr(d.totalPrice),
      u.paymentStatus.GetOr(d.paymentStatus),
      u.notes.OrElse(d.notes)), now)
  }

  const NoBookingUpdates := BookingUpdates(None, None, None, None, None, None, None, None)

  /** Merging changes exactly the supplied keys: an empty update only
      refreshes `updatedAt`, and merging the same update twice is merging it
      once. */
  lemma MergeBookingProperties(booking: Booking, patch: BookingPatch, now: int)
    ensures MergeBooking(booking, Patch(None, None, None, NoBookingUpdates), now) == booking.(updatedAt := now)
    ensures MergeBooking(MergeBooking(booking, patch, now), patch, now) == MergeBooking(booking, patch, now)
  {
  }

  /** The booking list after `updateBooking`. */
  function BookingsAfterUpdate(bookings: seq<Booking>, id: string, patch: BookingPatch, now: int): seq<Booking> {
    ApplyFirst(bookings, id, (b: Booking) => MergeBooking(b, patch, now))
  }

  /** `cancelBooking`'s replacement: status cancelled, fresh `updatedAt`. */
  function CancelAt(now: int): (f: Booking -> Booking)
    ensures forall b :: f(b).id == b.id && f(b).createdAt == b.createdAt && f(b).updatedAt == now
    ensures forall b :: f(b).data.status == BookingCancelled && f(b).data.paymentStatus == b.data.paymentStatus
  {
    (b: Booking) => b.(updatedAt := now, data := b.data.(status := BookingCancelled))
  }

  /** `updatePaymentStatus`'s replacement: the payment status, fresh `updatedAt`. */
  function PayAt(paymentStatus: PaymentStatus, now: int): (f: Booking -> Booking)
    ensures forall b :: f(b).id == b.id && f(b).createdAt == b.createdAt && f(b).updatedAt == now
    ensures forall b :: f(b).data.paymentStatus == paymentStatus && f(b).data.status == b.data.status
  {
    (b: Booking) => b.(updatedAt := now, data := b.data.(paymentStatus := paymentStatus))
  }

  /** The booking list after `cancelBooking`. */
  function BookingsAfterCancel(bookings: seq<Booking>, id: string, now: int): seq<Booking> {
    ApplyFirst(bookings, id, CancelAt(now))
  }

  /** The booking list after `updatePaymentStatus`. */
  function BookingsAfterPayment(bookings: seq<Booking>, id: string, paymentStatus: PaymentStatus, now: int): seq<Booking> {
    ApplyFirst(bookings, id, PayAt(paymentStatus, now))
  }

  /** Cancelling a present booking changes only its status and `updatedAt`,
      after which it is among the cancelled bookings and not among the
      pending ones; cancelling an absent id changes nothing. */
  lemma CancelBookingEffect(bookings: seq<Booking>, id: string, now: int)
    ensures !HasId(bookings, id) ==> BookingsAfterCancel(bookings, id, now) == bookings
    ensures HasId(bookings, id) ==>
      var i := IndexOf(bookings, id);
      var r := BookingsAfterCancel(bookings, id, now);
      r[i] == bookings[i].(updatedAt := now, data := bookings[i].data.(status := BookingCancelled)) &&
      r[i] in BookingsWithStatusName(r, "cancelled") && r[i] !in BookingsWithStatusName(r, "pending")
  {
  }

  /** Cancelling twice is cancelling once at the later time: the second call
      changes only `updatedAt`. */
  lemma CancelBookingIdempotent(bookings: seq<Booking>, id: string, t1: int, t2: int)
    ensures BookingsAfterCancel(BookingsAfterCancel(bookings, id, t1), id, t2) == BookingsAfterCancel(bookings, id, t2)
  {
    ApplyFirstTwice(bookings, id, CancelAt(t1), CancelAt(t2), CancelAt(t2));
  }

  /** A payment update changes only `paymentStatus` and `updatedAt` of the
      first booking with the id, and no other booking. */
  lemma PaymentUpdateEffect(bookings: seq<Booking>, id: string, paymentStatus: PaymentStatus, now: int)
    requires HasId(bookings, id)
    ensures var i := IndexOf(bookings, id);
            var r := BookingsAfterPayment(bookings, id, paymentStatus, now);
            |r| == |bookings| &&
            r[i] == bookings[i].(updatedAt := now, data := bookings[i].data.(paymentStatus := paymentStatus)) &&
            forall k :: 0 <= k < |r| && k != i ==> r[k] == bookings[k]
  {
  }

  /** None of the update actions changes a list that lacks the id. */
  lemma UpdatesOfAbsentIdAreNoOps(bookings: seq<Booking>, id: string, patch: BookingPatch,
                                  paymentStatus: PaymentStatus, now: int)
    requires !HasId(bookings, id)
    ensures BookingsAfterUpdate(bookings, id, patch, now) == bookings
    ensures BookingsAfterCancel(bookings, id, now) == bookings
    ensures BookingsAfterPayment(bookings, id, paymentStatus, now) == bookings
  {
  }

  // ---------------------------------------------------------------- the store

  class BookingStore {
    var bookings: seq<Booking>
    var selectedBooking: Option<Booking>
    var loading: bool
    var error: Option<string>

    constructor ()
      ensures bookings == [] && selectedBooking == None && !loading && error == None
    {
      bookings := [];
      selectedBooking := None;
      loading := false;
      error := None;
    }

    /** getBookingById. */
    function GetBookingById(id: string): Option<Booking>
      reads this
    {
      FindById(bookings, id)
    }

    method FetchBookings()
      modifies this
      ensures bookings == [] && selectedBooking == old(selectedBooking)
      ensures !loading && error == None
    {
      loading := true;
      error := None;
      bookings := [];
      loading := false;
    }

    method CreateBooking(booking: BookingData, freshId: string, now: int) returns (newBooking: Booking)
      modifies this
      ensures newBooking == Stamp(booking, freshId, now)
      ensures bookings == old(bookings) + [newBooking]
      ensures selectedBooking == old(selectedBooking) && !loading && error == None
    {
      loading := true;
      error := None;
      newBooking := Stamp(booking, freshId, now);
      bookings := bookings + [newBooking];
      loading := false;
    }

    method UpdateBooking(bookingId: string, updates: BookingPatch, now: int)
      modifies this
      ensures bookings == BookingsAfterUpdate(old(bookings), bookingId, updates, now)
      ensures selectedBooking == old(selectedBooking) && !loading && error == None
    {
      loading := true;
      error := None;
      var index := IndexOf(bookings, bookingId);
      if index != -1 {
        bookings := bookings[index := MergeBooking(bookings[index], updates, now)];
      }
      loading := false;
    }

    method CancelBooking(bookingId: string, now: int)
      modifies this
      ensures bookings == BookingsAfterCancel(old(bookings), bookingId, now)
      ensures selectedBooking == old(selectedBooking) && !loading && error == None
    {
      loading := true;
      error := None;
      var index := IndexOf(bookings, bookingId);
      if index != -1 {
        bookings := bookings[index := bookings[index].(updatedAt := now, data := bookings[index].data.(status := BookingCancelled))];
      }
      loading := false;
    }

    method UpdatePaymentStatus(bookingId: string, paymentStatus: PaymentStatus, now: int)
      modifies this
      ensures bookings == BookingsAfterPayment(old(bookings), bookingId, paymentStatus, now)
      ensures selectedBooking == old(selectedBooking) && !loading && error == None
    {
      loading := true;
      error := None;
      var index := IndexOf(bookings, bookingId);
      if index != -1 {
        bookings := bookings[index := bookings[index].(updatedAt := now, data := bookings[index].data.(paymentStatus := paymentStatus))];
      }
      loading := false;
    }

    method SetSelectedBooking(booking: Option<Booking>)
      modifies this
      ensures selectedBooking == booking
      ensures bookings == old(bookings) && loading == old(loading) && error == old(error)
    {
      selectedBooking := booking;
    }
  }
}
