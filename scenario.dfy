/**
 * An end-to-end rental run through the route handlers: a Camry at 800,000
 * VND a day is booked for 2024-12-01 to 2024-12-03, handed over, booked a
 * second time while rented, and returned.
 */
module Scenario {
  import opened Wrappers
  import opened Schema
  import opened Storage
  import opened Routes
  import BookingForm
  import CarDetail
  import AdminBookings

  const Camry := InsertCar("Toyota", "Camry", 2023, Sedan, Automatic, Gasoline, 5, 800000,
                           "https://example.com/camry.jpg", None, Some(Available), None)
  const CamryId := "car-c1"
  const FirstBookingId := "booking-b1"

  /** A fresh store with the Camry posted into it, marked available. */
  method StockCamry() returns (store: MemStorage)
    ensures fresh(store) && store.Valid()
    ensures store.cars == map[CamryId := CarOf(CamryId, Camry)] && store.bookings == map[]
  {
    store := new MemStorage();
    assert "car-" + "c1" == CamryId;
    var rep := PostCar(store, Parsed(Camry), "c1");
  }

  /**
   * The customer picks day 1 to day 3 on the Camry's page and submits: the
   * form shows 1,600,000 and the booking is created.
   */
  method BookCamry(store: MemStorage, startIso: string, endIso: string) returns (price: int, body: InsertBooking, code: int)
    requires store.Valid() && CamryId in store.cars && store.cars[CamryId].status == Some(Available)
    requires store.bookings == map[]
    modifies store
    ensures store.Valid() && store.cars == old(store.cars)
    ensures price == 1600000 && code == 201 && body.carId == CamryId
    ensures store.bookings.Keys == {FirstBookingId} && store.bookings[FirstBookingId].carId == CamryId
  {
    var summary := new BookingForm.PriceSummary(800000);
    summary.OnDatesChanged(Some(1), Some(3));
    var v := BookingForm.FormValues("Nguyen Van A", "0909123456", "012345678", Some(1), Some(3), None);
    var sub := summary.HandleSubmit(v);
    price := sub.totalPrice;
    body := CarDetail.BookingPayload(CamryId, sub, startIso, endIso);
    assert "booking-" + "b1" == FirstBookingId;
    var rep := PostBooking(store, Parsed(body), "b1", 1000);
    code := rep.code;
  }

  /** Staff mark the booking `status` as given; the cascade moves the Camry to that car status. */
  method SetStatus(store: MemStorage, status: BookingStatus) returns (carStatus: Option<CarStatus>)
    requires store.Valid() && CamryId in store.cars
    requires FirstBookingId in store.bookings && store.bookings[FirstBookingId].carId == CamryId
    requires ForcedCarStatus(status).Some?
    modifies store
    ensures store.Valid() && CamryId in store.cars && store.bookings.Keys == old(store.bookings.Keys)
    ensures FirstBookingId in store.bookings && store.bookings[FirstBookingId].carId == CamryId
    ensures carStatus == store.cars[CamryId].status == ForcedCarStatus(status)
  {
    var rep := PatchBooking(store, FirstBookingId, Parsed(AdminBookings.StatusPatch(status)));
    CascadeEffect(old(store.cars), CamryId, Some(status));
    carStatus := store.cars[CamryId].status;
  }

  /**
   * The two days are priced at 1,600,000; the first booking is created; while
   * the car is rented a second booking is refused and not stored; returning
   * the car makes it available again. `startIso` and `endIso` stand for the
   * ISO renderings of the two picked dates, which the date library produces.
   */
  method CamryRental(startIso: string, endIso: string)
    returns (price: int, created: int, refused: Reply<Booking>, whileRented: Option<CarStatus>,
             afterReturn: Option<CarStatus>, stored: set<string>)
    ensures price == 1600000
    ensures created == 201
    ensures refused == Reply(400, Error(CarUnavailable))
    ensures whileRented == Some(Rented) && afterReturn == Some(Available)
    ensures stored == {FirstBookingId}
  {
    var store := StockCamry();
    var body;
    price, body, created := BookCamry(store, startIso, endIso);
    whileRented := SetStatus(store, Renting);
    assert "booking-" + "b2" == "booking-b2" != FirstBookingId;
    refused := PostBooking(store, Parsed(body), "b2", 2000);
    afterReturn := SetStatus(store, Returned);
    stored := store.bookings.Keys;
  }

  /**
   * A car posted without a status is stored without one: the store does not
   * apply the column default, so every booking of it is refused.
   */
  method StatuslessCarRefused(booking: InsertBooking) returns (stored: Option<CarStatus>, rep: Reply<Booking>)
    requires booking.carId == CamryId
    ensures stored.None?
    ensures rep == Reply(400, Error(CarUnavailable))
  {
    var store := new MemStorage();
    assert "car-" + "c1" == CamryId;
    var posted := PostCar(store, Parsed(Camry.(status := None)), "c1");
    stored := store.cars[CamryId].status;
    rep := PostBooking(store, Parsed(booking), "b1", 1000);
  }

  /** Creating a car and reading it back by the returned id gives exactly the created record. */
  method CreateThenGetCar(store: MemStorage, x: InsertCar, uuid: string) returns (created: Car, fetched: Option<Car>)
    requires store.Valid() && "car-" + uuid !in store.cars
    modifies store
    ensures created == CarOf("car-" + uuid, x) && fetched == Some(created)
  {
    created := store.CreateCar(x, uuid);
    fetched := store.GetCar(created.id);
  }

  /** Deleting the same car twice: the second call reports that nothing was removed. */
  method DeleteCarTwice(store: MemStorage, id: string) returns (first: bool, second: bool)
    requires store.Valid()
    modifies store
    ensures first == (id in old(store.cars)) && !second
    ensures store.cars == old(store.cars) - {id}
  {
    first := store.DeleteCar(id);
    second := store.DeleteCar(id);
  }
}
