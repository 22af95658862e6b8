/** The admin dashboard's figures, computed from the car and booking lists as fetched. */
module Dashboard {
  import opened Wrappers
  import opened Seqs
  import opened Schema

  /** `cars.filter(c => c.status === s)`: the cars in status `s`, in listed order. */
  function CarsIn(cars: seq<Car>, s: CarStatus): (r: seq<Car>)
    ensures forall i :: 0 <= i < |r| ==> r[i].status == Some(s)
    ensures forall i :: 0 <= i < |cars| && cars[i].status == Some(s) ==> cars[i] in r
    ensures IsSubseq(r, cars)
    ensures forall c :: multiset(r)[c] == if c.status == Some(s) then multiset(cars)[c] else 0
  {
    FilterMultiset(cars, (c: Car) => c.status == Some(s));
    Filter(cars, (c: Car) => c.status == Some(s))
  }

  /** The cars stored without a status, which no per-status count includes. */
  function CarsWithoutStatus(cars: seq<Car>): (r: seq<Car>)
    ensures forall i :: 0 <= i < |r| ==> r[i].status.None?
    ensures forall i :: 0 <= i < |cars| && cars[i].status.None? ==> cars[i] in r
    ensures IsSubseq(r, cars)
    ensures forall c :: multiset(r)[c] == if c.status.None? then multiset(cars)[c] else 0
  {
    FilterMultiset(cars, (c: Car) => c.status.None?);
    Filter(cars, (c: Car) => c.status.None?)
  }

  /** The bookings in status `s`, in listed order. */
  function BookingsIn(bs: seq<BookingWithCar>, s: BookingStatus): (r: seq<BookingWithCar>)
    ensures forall i :: 0 <= i < |r| ==> r[i].booking.status == s
    ensures forall i :: 0 <= i < |bs| && bs[i].booking.status == s ==> bs[i] in r
    ensures IsSubseq(r, bs)
    ensures forall b :: multiset(r)[b] == if b.booking.status == s then multiset(bs)[b] else 0
  {
    FilterMultiset(bs, (b: BookingWithCar) => b.booking.status == s);
    Filter(bs, (b: BookingWithCar) => b.booking.status == s)
  }

  /** How many cars are in status `s`; 0 before the list has loaded. */
  function CountCars(cars: Option<seq<Car>>, s: CarStatus): (n: nat)
    ensures cars.None? ==> n == 0
    ensures cars.Some? ==> n <= |cars.value| && n == |CarsIn(cars.value, s)|
  {
    if cars.None? then 0 else |CarsIn(cars.value, s)|
  }

  /** The "total cars" card. */
  function TotalCars(cars: Option<seq<Car>>): (n: nat)
    ensures cars.Some? ==> n == |cars.value|
    ensures cars.None? ==> n == 0
  {
    if cars.None? then 0 else |cars.value|
  }

  /** The "ready" line under the rented-cars card: total minus rented. */
  function ReadyCars(cars: Option<seq<Car>>): (n: int)
    ensures cars.None? ==> n == 0
    ensures cars.Some? ==> 0 <= n <= |cars.value|
  {
    TotalCars(cars) - CountCars(cars, Rented)
  }

  /** The "pending bookings" card: how many bookings are `pending`; 0 before the list has loaded. */
  function PendingBookings(bookings: Option<seq<BookingWithCar>>): (n: nat)
    ensures bookings.Some? ==> n <= |bookings.value| && n == |BookingsIn(bookings.value, Pending)|
    ensures bookings.None? ==> n == 0
  {
    if bookings.None? then 0 else |BookingsIn(bookings.value, Pending)|
  }

  /** `reduce((sum, b) => sum + b.totalPrice, 0)`, folding from the left. */
  function SumPrices(bs: seq<BookingWithCar>): (r: int)
    ensures bs == [] ==> r == 0
    ensures |bs| == 1 ==> r == bs[0].booking.totalPrice
  {
    if bs == [] then 0 else SumPrices(bs[..|bs| - 1]) + bs[|bs| - 1].booking.totalPrice
  }

  /** The bookings that count as revenue: exactly the returned ones, in listed order. */
  function Returned(bs: seq<BookingWithCar>): (r: seq<BookingWithCar>)
    ensures forall i :: 0 <= i < |r| ==> r[i].booking.status == Schema.Returned
    ensures forall i :: 0 <= i < |bs| && bs[i].booking.status == Schema.Returned ==> bs[i] in r
    ensures IsSubseq(r, bs)
    ensures forall b :: multiset(r)[b] == if b.booking.status == Schema.Returned then multiset(bs)[b] else 0
  {
    BookingsIn(bs, Schema.Returned)
  }

  /** The revenue card: the total price of every returned booking; 0 before the list has loaded. */
  function TotalRevenue(bookings: Option<seq<BookingWithCar>>): (r: int)
    ensures bookings.None? ==> r == 0
    ensures bookings.Some? && |bookings.value| == 1 ==>
      r == (if bookings.value[0].booking.status == Schema.Returned then bookings.value[0].booking.totalPrice else 0)
  {
    if bookings.None? then 0
    else
      assert |bookings.value| == 1 ==> Returned(bookings.value) == Filter([bookings.value[0]], (b: BookingWithCar) => b.booking.status == Schema.Returned) by {
        if |bookings.value| == 1 {
          assert bookings.value == [bookings.value[0]];
        }
      }
      SumPrices(Returned(bookings.value))
  }

  /** The "recent bookings" panel: the first five bookings of the list, which the server sorts newest first. */
  function RecentBookings(bookings: Option<seq<BookingWithCar>>): (r: seq<BookingWithCar>)
    ensures |r| <= 5
    ensures bookings.None? ==> r == []
    ensures bookings.Some? ==> |r| == (if |bookings.value| < 5 then |bookings.value| else 5) && r == bookings.value[..|r|]
  {
    if bookings.None? then [] else Take(bookings.value, 5)
  }

  /**
   * The three per-status counts of the fleet panel, together with the cars
   * stored without a status, add up to the total.
   */
  lemma {:induction false} StatusCountsPartition(cars: seq<Car>)
    ensures |CarsIn(cars, Available)| + |CarsIn(cars, Rented)| + |CarsIn(cars, Maintenance)|
            + |CarsWithoutStatus(cars)| == |cars|
  {
    if cars != [] {
      var rest := cars[1..];
      StatusCountsPartition(rest);
      CountStep(cars, Available);
      CountStep(cars, Rented);
      CountStep(cars, Maintenance);
      var x := cars[0].status;
      assert (if x == Some(Available) then 1 else 0) + (if x == Some(Rented) then 1 else 0)
             + (if x == Some(Maintenance) then 1 else 0) + (if x.None? then 1 else 0) == 1 by {
        match x
        case None =>
        case Some(st) =>
          match st
          case Available =>
          case Rented =>
          case Maintenance =>
      }
    }
  }

  /** Each count, taken over a non-empty list, is the first car's share plus the count over the rest. */
  lemma CountStep(cars: seq<Car>, s: CarStatus)
    requires cars != []
    ensures |CarsIn(cars, s)| == (if cars[0].status == Some(s) then 1 else 0) + |CarsIn(cars[1..], s)|
    ensures |CarsWithoutStatus(cars)| == (if cars[0].status.None? then 1 else 0) + |CarsWithoutStatus(cars[1..])|
  {
  }

  /** "Ready" counts the available and the maintenance cars, and those stored without a status. */
  lemma ReadyIsAvailablePlusMaintenance(cars: Option<seq<Car>>)
    ensures cars.Some? ==>
      ReadyCars(cars) == CountCars(cars, Available) + CountCars(cars, Maintenance) + |CarsWithoutStatus(cars.value)|
    ensures cars.None? ==> ReadyCars(cars) == 0
  {
    if cars.Some? {
      StatusCountsPartition(cars.value);
    }
  }

  /** Summing is additive over concatenation. */
  lemma {:induction false} SumPricesConcat(a: seq<BookingWithCar>, b: seq<BookingWithCar>)
    ensures SumPrices(a + b) == SumPrices(a) + SumPrices(b)
    decreases |b|
  {
    if b != [] {
      assert (a + b)[..|a + b| - 1] == a + b[..|b| - 1];
      SumPricesConcat(a, b[..|b| - 1]);
    } else {
      assert a + b == a;
    }
  }

  /** Revenue is additive over lists, so a booking adds its price exactly when it is returned. */
  lemma RevenueAdditive(a: seq<BookingWithCar>, b: seq<BookingWithCar>, x: BookingWithCar)
    ensures TotalRevenue(Some(a + b)) == TotalRevenue(Some(a)) + TotalRevenue(Some(b))
    ensures TotalRevenue(Some(a + [x])) ==
      TotalRevenue(Some(a)) + (if x.booking.status == Schema.Returned then x.booking.totalPrice else 0)
  {
    var p := (b: BookingWithCar) => b.booking.status == Schema.Returned;
    FilterConcat(a, b, p);
    SumPricesConcat(Returned(a), Returned(b));
    FilterConcat(a, [x], p);
    SumPricesConcat(Returned(a), Returned([x]));
    if p(x) {
      assert Returned([x]) == [x];
      assert SumPrices([x]) == SumPrices([]) + x.booking.totalPrice;
    }
  }

  /** With non-negative prices the revenue is non-negative. */
  lemma {:induction false} RevenueNonNegative(bs: seq<BookingWithCar>)
    requires forall i :: 0 <= i < |bs| ==> bs[i].booking.totalPrice >= 0
    ensures TotalRevenue(Some(bs)) >= 0
  {
    var r := Returned(bs);
    SumNonNegative(r, bs);
  }

  lemma {:induction false} SumNonNegative(r: seq<BookingWithCar>, bs: seq<BookingWithCar>)
    requires forall i :: 0 <= i < |bs| ==> bs[i].booking.totalPrice >= 0
    requires forall i :: 0 <= i < |r| ==> r[i] in bs
    ensures SumPrices(r) >= 0
    decreases |r|
  {
    if r != [] {
      SumNonNegative(r[..|r| - 1], bs);
      assert r[|r| - 1] in bs;
    }
  }
}
