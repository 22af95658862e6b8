/** The admin booking page: the search and status filter over joined bookings, and the status change it sends. */
module AdminBookings {
  import opened Wrappers
  import opened Seqs
  import opened Text
  import opened Schema
  import opened Storage

  /**
   * The search box: the customer's name ignoring case, the phone number as
   * typed, or "brand model" of the joined car ignoring case when that car
   * still exists.
   */
  predicate MatchesSearch(b: BookingWithCar, q: string)
    ensures q == "" ==> MatchesSearch(b, q)
    ensures b.car.None? ==>
      (MatchesSearch(b, q) <==> Includes(Lower(b.booking.customerName), Lower(q)) || Includes(b.booking.customerPhone, q))
  {
    IncludesEmpty(Lower(b.booking.customerName));
    || Includes(Lower(b.booking.customerName), Lower(q))
    || Includes(b.booking.customerPhone, q)
    || (b.car.Some? && Includes(Lower(b.car.value.brand + " " + b.car.value.model), Lower(q)))
  }

  /** The status select: `"all"` or one status name. */
  predicate MatchesStatus(b: BookingWithCar, statusFilter: string)
    ensures statusFilter == "all" ==> MatchesStatus(b, statusFilter)
    ensures statusFilter == BookingStatusName(b.booking.status) ==> MatchesStatus(b, statusFilter)
    ensures statusFilter != "all" && statusFilter !in BookingStatusNames ==> !MatchesStatus(b, statusFilter)
  {
    statusFilter == "all" || BookingStatusName(b.booking.status) == statusFilter
  }

  /** `bookings?.filter(...)`: nothing until loaded, then the bookings passing both tests, in listed order. */
  function FilteredBookings(bookings: Option<seq<BookingWithCar>>, q: string, statusFilter: string): (r: Option<seq<BookingWithCar>>)
    ensures r.Some? <==> bookings.Some?
    ensures r.Some? ==> IsSubseq(r.value, bookings.value)
    ensures r.Some? ==> forall i :: 0 <= i < |r.value| ==>
      MatchesSearch(r.value[i], q) && MatchesStatus(r.value[i], statusFilter)
    ensures r.Some? ==> forall i :: 0 <= i < |bookings.value| ==>
      MatchesSearch(bookings.value[i], q) && MatchesStatus(bookings.value[i], statusFilter) ==> bookings.value[i] in r.value
  {
    if bookings.None? then None
    else Some(Filter(bookings.value, b => MatchesSearch(b, q) && MatchesStatus(b, statusFilter)))
  }

  /** The page as it opens (empty search, status `"all"`) lists every booking in server order. */
  lemma InitialViewListsAll(bookings: seq<BookingWithCar>)
    ensures FilteredBookings(Some(bookings), "", "all") == Some(bookings)
  {
    forall i | 0 <= i < |bookings| ensures MatchesSearch(bookings[i], "") {
      IncludesEmpty(Lower(bookings[i].booking.customerName));
    }
    FilterAll(bookings, b => MatchesSearch(b, "") && MatchesStatus(b, "all"));
  }

  /** Choosing a status name keeps exactly the bookings in that status; a text that names no status keeps none. */
  lemma StatusFilterSelects(bookings: seq<BookingWithCar>, q: string, s: BookingStatus, other: string)
    requires other != "all" && other !in BookingStatusNames
    ensures forall i :: 0 <= i < |FilteredBookings(Some(bookings), q, BookingStatusName(s)).value| ==>
      FilteredBookings(Some(bookings), q, BookingStatusName(s)).value[i].booking.status == s
    ensures FilteredBookings(Some(bookings), q, other) == Some([])
  {
    var r := FilteredBookings(Some(bookings), q, BookingStatusName(s)).value;
    forall i | 0 <= i < |r| ensures r[i].booking.status == s {
      NamesRoundTrip(Sedan, Automatic, Gasoline, Available, r[i].booking.status);
      NamesRoundTrip(Sedan, Automatic, Gasoline, Available, s);
    }
    var none := FilteredBookings(Some(bookings), q, other).value;
    if none != [] {
      NamesRoundTrip(Sedan, Automatic, Gasoline, Available, none[0].booking.status);
      assert false;
    }
  }

  /** A booking whose car was deleted can only be found by its customer's name or phone. */
  lemma OrphanFoundByCustomerOnly(b: BookingWithCar, q: string)
    requires b.car.None?
    ensures MatchesSearch(b, q) <==>
      Includes(Lower(b.booking.customerName), Lower(q)) || Includes(b.booking.customerPhone, q)
  {
  }

  /** The body a status change sends: the new status and no other field. */
  function StatusPatch(s: BookingStatus): (p: BookingPatch)
    ensures p.status == Some(s)
    ensures p.(status := None) == EmptyBookingPatch
  {
    EmptyBookingPatch.(status := Some(s))
  }

  /** On the server a status change rewrites the booking's status alone, and moves its car only as the cascade says. */
  lemma StatusChangeEffect(b: Booking, cars: map<string, Car>, s: BookingStatus)
    ensures MergeBooking(b, StatusPatch(s)) == b.(status := s)
    ensures ForcedCarStatus(s).None? ==> Cascade(cars, b.carId, StatusPatch(s).status) == cars
    ensures b.carId in cars && ForcedCarStatus(s).Some? ==>
      Cascade(cars, b.carId, StatusPatch(s).status) == cars[b.carId := cars[b.carId].(status := ForcedCarStatus(s))]
  {
  }
}
