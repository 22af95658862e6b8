/**
 * The REST handlers for `/api/cars` and `/api/bookings`: each is a short
 * guard chain (validation, lookup, availability) in front of one store call.
 * None of them consults a session or a role.
 */
module Routes {
  import opened Wrappers
  import opened Schema
  import opened Storage

  /** The outcome of `schema.parse(req.body)`: the validated value, or a validation error. */
  datatype Parsed<T> = Parsed(value: T) | Invalid

  /** The refusals the handlers distinguish, one per error message they send. */
  datatype Failure =
    | InvalidData      // schema validation failed
    | CarNotFound      // unknown car id in the path
    | BookingNotFound  // unknown booking id in the path
    | CarMissing       // the booking names a car that does not exist
    | CarUnavailable   // the booking names a car whose status is not `available`

  datatype Body<T> = Record(value: T) | Empty | Error(failure: Failure)

  /** An HTTP status code and the JSON body sent with it. */
  datatype Reply<T> = Reply(code: int, body: Body<T>)

  /** GET /api/cars — 200 with every stored car once, in insertion order. */
  method ListCars(store: MemStorage) returns (rep: Reply<seq<Car>>)
    requires store.Valid()
    ensures rep.code == 200 && rep.body.Record?
    ensures |rep.body.value| == |store.cars| == |store.carOrder|
    ensures forall i :: 0 <= i < |rep.body.value| ==> rep.body.value[i] == store.cars[store.carOrder[i]]
    ensures forall k :: k in store.cars ==> store.cars[k] in rep.body.value
  {
    rep := Reply(200, Record(store.CarList()));
  }

  /** GET /api/cars/:id — 404 for an unknown id, otherwise 200 with the car. */
  method GetCar(store: MemStorage, id: string) returns (rep: Reply<Car>)
    requires store.Valid()
    ensures id !in store.cars ==> rep == Reply(404, Error(CarNotFound))
    ensures id in store.cars ==> rep == Reply(200, Record(store.cars[id])) && rep.body.value.id == id
  {
    var car := store.GetCar(id);
    if car.None? {
      return Reply(404, Error(CarNotFound));
    }
    rep := Reply(200, Record(car.value));
  }

  /** POST /api/cars — 400 before any store call when the body is invalid, otherwise 201 with the new car. */
  method PostCar(store: MemStorage, body: Parsed<InsertCar>, uuid: string) returns (rep: Reply<Car>)
    requires store.Valid() && "car-" + uuid !in store.cars
    modifies store
    ensures store.Valid()
    ensures body.Invalid? ==> rep == Reply(400, Error(InvalidData)) && unchanged(store)
    ensures body.Parsed? ==>
      && rep == Reply(201, Record(CarOf("car-" + uuid, body.value)))
      && store.cars == old(store.cars)[rep.body.value.id := rep.body.value]
      && store.carOrder == old(store.carOrder) + [rep.body.value.id]
    ensures store.bookings == old(store.bookings) && store.bookingOrder == old(store.bookingOrder)
    ensures store.users == old(store.users) && store.userOrder == old(store.userOrder)
  {
    if body.Invalid? {
      return Reply(400, Error(InvalidData));
    }
    var car := store.CreateCar(body.value, uuid);
    rep := Reply(201, Record(car));
  }

  /** PATCH /api/cars/:id — 400 for an invalid patch, 404 for an unknown id, otherwise 200 with the merged car. */
  method PatchCar(store: MemStorage, id: string, body: Parsed<CarPatch>) returns (rep: Reply<Car>)
    requires store.Valid()
    modifies store
    ensures store.Valid()
    ensures body.Invalid? ==> rep == Reply(400, Error(InvalidData)) && unchanged(store)
    ensures body.Parsed? && id !in old(store.cars) ==>
      rep == Reply(404, Error(CarNotFound)) && store.cars == old(store.cars)
    ensures body.Parsed? && id in old(store.cars) ==>
      && rep == Reply(200, Record(MergeCar(old(store.cars)[id], body.value)))
      && store.cars == old(store.cars)[id := rep.body.value]
    ensures store.carOrder == old(store.carOrder)
    ensures store.bookings == old(store.bookings) && store.bookingOrder == old(store.bookingOrder)
    ensures store.users == old(store.users) && store.userOrder == old(store.userOrder)
  {
    if body.Invalid? {
      return Reply(400, Error(InvalidData));
    }
    var car := store.UpdateCar(id, body.value);
    if car.None? {
      return Reply(404, Error(CarNotFound));
    }
    rep := Reply(200, Record(car.value));
  }

  /** DELETE /api/cars/:id — 204 when a car was removed, 404 when there was none. */
  method DeleteCar(store: MemStorage, id: string) returns (rep: Reply<Car>)
    requires store.Valid()
    modifies store
    ensures store.Valid()
    ensures id in old(store.cars) ==> rep == Reply(204, Empty)
    ensures id !in old(store.cars) ==> rep == Reply(404, Error(CarNotFound))
    ensures store.cars == old(store.cars) - {id} && store.carOrder == Without(old(store.carOrder), id)
    ensures store.bookings == old(store.bookings) && store.bookingOrder == old(store.bookingOrder)
    ensures store.users == old(store.users) && store.userOrder == old(store.userOrder)
  {
    var deleted := store.DeleteCar(id);
    if !deleted {
      return Reply(404, Error(CarNotFound));
    }
    rep := Reply(204, Empty);
  }

  /** GET /api/bookings — every booking joined with its car, newest first. */
  method ListBookings(store: MemStorage) returns (rep: Reply<seq<BookingWithCar>>)
    requires store.Valid()
    ensures rep.code == 200 && rep.body.Record?
    ensures |rep.body.value| == |store.bookings| && NewestFirst(rep.body.value)
    ensures forall id :: id in store.bookings ==> Join(store.bookings[id], store.cars) in rep.body.value
  {
    var list := store.GetBookings();
    rep := Reply(200, Record(list));
  }

  /** GET /api/bookings/:id — 404 for an unknown id, otherwise 200 with the joined booking. */
  method GetBooking(store: MemStorage, id: string) returns (rep: Reply<BookingWithCar>)
    requires store.Valid()
    ensures id !in store.bookings ==> rep == Reply(404, Error(BookingNotFound))
    ensures id in store.bookings ==> rep == Reply(200, Record(Join(store.bookings[id], store.cars)))
  {
    var booking := store.GetBooking(id);
    if booking.None? {
      return Reply(404, Error(BookingNotFound));
    }
    rep := Reply(200, Record(booking.value));
  }

  /**
   * POST /api/bookings — the creation guard: an invalid body, a missing car
   * and a car that is not `available` (a car stored without a status
   * included) are each refused with 400 and nothing
   * stored; otherwise 201 with the new booking. Creation never changes a car,
   * whatever status the body carries.
   */
  method PostBooking(store: MemStorage, body: Parsed<InsertBooking>, uuid: string, now: int)
    returns (rep: Reply<Booking>)
    requires store.Valid() && "booking-" + uuid !in store.bookings
    modifies store
    ensures store.Valid()
    ensures store.cars == old(store.cars)
    ensures body.Invalid? ==> rep == Reply(400, Error(InvalidData)) && unchanged(store)
    ensures body.Parsed? && body.value.carId !in old(store.cars) ==>
      rep == Reply(400, Error(CarMissing)) && unchanged(store)
    ensures body.Parsed? && body.value.carId in old(store.cars)
            && old(store.cars)[body.value.carId].status != Some(Available) ==>
      rep == Reply(400, Error(CarUnavailable)) && unchanged(store)
    ensures body.Parsed? && body.value.carId in old(store.cars)
            && old(store.cars)[body.value.carId].status == Some(Available) ==>
      && rep == Reply(201, Record(BookingOf("booking-" + uuid, now, body.value)))
      && store.bookings == old(store.bookings)[rep.body.value.id := rep.body.value]
      && store.bookingOrder == old(store.bookingOrder) + [rep.body.value.id]
    ensures store.carOrder == old(store.carOrder)
    ensures store.users == old(store.users) && store.userOrder == old(store.userOrder)
    ensures rep.code == 201 <==>
      body.Parsed? && body.value.carId in old(store.cars) && old(store.cars)[body.value.carId].status == Some(Available)
  {
    if body.Invalid? {
      return Reply(400, Error(InvalidData));
    }
    var car := store.GetCar(body.value.carId);
    if car.None? {
      return Reply(400, Error(CarMissing));
    }
    if car.value.status != Some(Available) {
      return Reply(400, Error(CarUnavailable));
    }
    var booking := store.CreateBooking(body.value, uuid, now);
    rep := Reply(201, Record(booking));
  }

  /**
   * PATCH /api/bookings/:id — 400 for an invalid patch, 404 for an unknown
   * id, otherwise 200 with the merged booking and the status cascade applied
   * to the car the booking referenced before the patch.
   */
  method PatchBooking(store: MemStorage, id: string, body: Parsed<BookingPatch>) returns (rep: Reply<Booking>)
    requires store.Valid()
    modifies store
    ensures store.Valid()
    ensures body.Invalid? ==> rep == Reply(400, Error(InvalidData)) && unchanged(store)
    ensures body.Parsed? && id !in old(store.bookings) ==>
      rep == Reply(404, Error(BookingNotFound))
      && store.bookings == old(store.bookings) && store.cars == old(store.cars)
    ensures body.Parsed? && id in old(store.bookings) ==>
      && rep == Reply(200, Record(MergeBooking(old(store.bookings)[id], body.value)))
      && store.bookings == old(store.bookings)[id := rep.body.value]
      && store.cars == Cascade(old(store.cars), old(store.bookings)[id].carId, body.value.status)
    ensures store.carOrder == old(store.carOrder) && store.bookingOrder == old(store.bookingOrder)
    ensures store.users == old(store.users) && store.userOrder == old(store.userOrder)
  {
    if body.Invalid? {
      return Reply(400, Error(InvalidData));
    }
    var booking := store.UpdateBooking(id, body.value);
    if booking.None? {
      return Reply(404, Error(BookingNotFound));
    }
    rep := Reply(200, Record(booking.value));
  }

  /** DELETE /api/bookings/:id — 204 when a booking was removed, 404 when there was none; cars untouched. */
  method DeleteBooking(store: MemStorage, id: string) returns (rep: Reply<Booking>)
    requires store.Valid()
    modifies store
    ensures store.Valid()
    ensures id in old(store.bookings) ==> rep == Reply(204, Empty)
    ensures id !in old(store.bookings) ==> rep == Reply(404, Error(BookingNotFound))
    ensures store.bookings == old(store.bookings) - {id} && store.bookingOrder == Without(old(store.bookingOrder), id)
    ensures store.cars == old(store.cars) && store.carOrder == old(store.carOrder)
    ensures store.users == old(store.users) && store.userOrder == old(store.userOrder)
  {
    var deleted := store.DeleteBooking(id);
    if !deleted {
      return Reply(404, Error(BookingNotFound));
    }
    rep := Reply(204, Empty);
  }
}
