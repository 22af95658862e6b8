/**
 * The in-memory record store: three keyed collections (users, cars,
 * bookings) and the one cross-collection rule, the booking-status cascade
 * onto the referenced car.
 */
module Storage {
  import opened Wrappers
  import opened Schema
  import opened Seqs

  /** `Partial<InsertCar>`: a field that is `None` is absent from the patch. */
  datatype CarPatch = CarPatch(
    brand: Option<string>,
    model: Option<string>,
    year: Option<int>,
    carType: Option<CarType>,
    transmission: Option<Transmission>,
    fuel: Option<Fuel>,
    seats: Option<int>,
    pricePerDay: Option<int>,
    image: Option<string>,
    description: Option<Option<string>>,
    status: Option<CarStatus>,
    features: Option<Option<string>>)

  /** `Partial<InsertBooking>`. */
  datatype BookingPatch = BookingPatch(
    carId: Option<string>,
    customerName: Option<string>,
    customerPhone: Option<string>,
    customerId: Option<string>,
    startDate: Option<string>,
    endDate: Option<string>,
    totalPrice: Option<int>,
    status: Option<BookingStatus>,
    notes: Option<string>)

  const EmptyCarPatch: CarPatch :=
    CarPatch(None, None, None, None, None, None, None, None, None, None, None, None)

  const EmptyBookingPatch: BookingPatch :=
    BookingPatch(None, None, None, None, None, None, None, None, None)

  /** `{ ...car, ...updates }`: each field present in the patch wins, every other keeps its value. */
  function MergeCar(c: Car, p: CarPatch): (r: Car)
    ensures r.id == c.id
    ensures p.status.None? ==> r.status == c.status
    ensures p.status.Some? ==> r.status == p.status
  {
    Car(c.id, p.brand.GetOr(c.brand), p.model.GetOr(c.model), p.year.GetOr(c.year),
        p.carType.GetOr(c.carType), p.transmission.GetOr(c.transmission), p.fuel.GetOr(c.fuel),
        p.seats.GetOr(c.seats), p.pricePerDay.GetOr(c.pricePerDay), p.image.GetOr(c.image),
        p.description.GetOr(c.description), if p.status.Some? then p.status else c.status,
        p.features.GetOr(c.features))
  }

  /** `{ ...booking, ...updates }`: the id and the creation time are never changed. */
  function MergeBooking(b: Booking, p: BookingPatch): (r: Booking)
    ensures r.id == b.id && r.createdAt == b.createdAt
    ensures p.status.Some? ==> r.status == p.status.value
    ensures p.status.None? ==> r.status == b.status
  {
    Booking(b.id, p.carId.GetOr(b.carId), p.customerName.GetOr(b.customerName),
            p.customerPhone.GetOr(b.customerPhone), p.customerId.GetOr(b.customerId),
            p.startDate.GetOr(b.startDate), p.endDate.GetOr(b.endDate),
            p.totalPrice.GetOr(b.totalPrice), p.status.GetOr(b.status), if p.notes.Some? then p.notes else b.notes,
            b.createdAt)
  }

  /** An empty patch changes nothing, and applying the same patch twice is applying it once. */
  lemma MergeLaws(c: Car, p: CarPatch, b: Booking, q: BookingPatch)
    ensures MergeCar(c, EmptyCarPatch) == c
    ensures MergeCar(MergeCar(c, p), p) == MergeCar(c, p)
    ensures MergeBooking(b, EmptyBookingPatch) == b
    ensures MergeBooking(MergeBooking(b, q), q) == MergeBooking(b, q)
  {
  }

  /**
   * A patch that carries every field of an insert body turns the car into
   * exactly that body, under its old id; a field the body leaves out keeps
   * the car's value.
   */
  lemma FullPatchReplaces(c: Car, x: InsertCar)
    ensures MergeCar(c, FullPatch(x)) ==
      CarOf(c.id, x.(status := if x.status.Some? then x.status else c.status,
                     description := if x.description.Some? then x.description else c.description,
                     features := if x.features.Some? then x.features else c.features))
  {
  }

  /**
   * The patch an insert body sent as JSON amounts to: every field it holds
   * is present. A missing description, feature list or status is left out of
   * the JSON, so the server keeps the old value rather than clearing it.
   */
  function FullPatch(x: InsertCar): (p: CarPatch)
    ensures p.status == x.status
    ensures p.description.Some? <==> x.description.Some?
    ensures p.features.Some? <==> x.features.Some?
    ensures p.brand == Some(x.brand) && p.model == Some(x.model) && p.image == Some(x.image)
  {
    CarPatch(Some(x.brand), Some(x.model), Some(x.year), Some(x.carType), Some(x.transmission),
             Some(x.fuel), Some(x.seats), Some(x.pricePerDay), Some(x.image),
             if x.description.Some? then Some(x.description) else None,
             x.status, if x.features.Some? then Some(x.features) else None)
  }

  /** `updateBooking`'s cascade onto the car the booking referenced, decided by the NEW status alone. */
  function Cascade(cars: map<string, Car>, carId: string, status: Option<BookingStatus>): (r: map<string, Car>)
    ensures r.Keys == cars.Keys
    ensures forall k :: k in cars ==> r[k].id == cars[k].id
  {
    if status == Some(Renting) then
      if carId in cars then cars[carId := cars[carId].(status := Some(Rented))] else cars
    else if status == Some(Returned) || status == Some(Cancelled) then
      if carId in cars then cars[carId := cars[carId].(status := Some(Available))] else cars
    else cars
  }

  /** The car status each booking status forces, if any. */
  function ForcedCarStatus(s: BookingStatus): Option<CarStatus> {
    match s
    case Renting => Some(Rented)
    case Returned => Some(Available)
    case Cancelled => Some(Available)
    case _ => None
  }

  /**
   * What the cascade does, field by field: the referenced car (when it still
   * exists) takes the forced status and keeps every other field; every other
   * car is untouched; without a forced status nothing changes.
   */
  lemma CascadeEffect(cars: map<string, Car>, carId: string, status: Option<BookingStatus>)
    ensures forall k :: k in cars && k != carId ==> Cascade(cars, carId, status)[k] == cars[k]
    ensures carId in cars && status.Some? && ForcedCarStatus(status.value).Some? ==>
      Cascade(cars, carId, status)[carId] == cars[carId].(status := ForcedCarStatus(status.value))
    ensures status.None? || ForcedCarStatus(status.value).None? ==> Cascade(cars, carId, status) == cars
    ensures carId !in cars ==> Cascade(cars, carId, status) == cars
  {
  }

  /** `order` lists the keys of a map, each once, in insertion order. */
  ghost predicate Tracks(order: seq<string>, keys: set<string>) {
    Distinct(order) && (forall k :: k in keys <==> k in order)
  }

  /** An insertion order lists as many entries as the map has keys. */
  lemma ListingCount(order: seq<string>, keys: set<string>)
    requires Tracks(order, keys)
    ensures |order| == |keys|
  {
    DistinctCard(order);
    assert (set x | x in order) == keys;
  }

  /** The values of `m` in the order `order` lists their keys: `Array.from(map.values())`. */
  function Values<V>(order: seq<string>, m: map<string, V>): (r: seq<V>)
    requires forall i :: 0 <= i < |order| ==> order[i] in m
    ensures |r| == |order|
    ensures forall i :: 0 <= i < |order| ==> r[i] == m[order[i]]
  {
    seq(|order|, i requires 0 <= i < |order| => m[order[i]])
  }

  /** `order` with `key` removed: what `map.delete` does to the insertion order. */
  function Without(order: seq<string>, key: string): (r: seq<string>)
    ensures key !in r
    ensures forall k :: k != key ==> (k in r <==> k in order)
  {
    Filter(order, k => k != key)
  }

  /** Index of the first user in `order` with the given username. */
  function FirstWithUsername(order: seq<string>, users: map<string, User>, name: string): (r: Option<nat>)
    requires forall i :: 0 <= i < |order| ==> order[i] in users
    ensures r.Some? ==> r.value < |order| && users[order[r.value]].username == name
    ensures r.Some? ==> forall j :: 0 <= j < r.value ==> users[order[j]].username != name
    ensures r.None? ==> forall j :: 0 <= j < |order| ==> users[order[j]].username != name
  {
    if order == [] then None
    else if users[order[0]].username == name then Some(0)
    else match FirstWithUsername(order[1..], users, name)
      case None => None
      case Some(i) => Some(i + 1)
  }

  /** Appending a user leaves an existing match in place, and finds the new user when there was none. */
  lemma {:induction false} FirstWithUsernameAppend(order: seq<string>, users: map<string, User>, name: string, id: string)
    requires forall i :: 0 <= i < |order| ==> order[i] in users
    requires id in users
    ensures FirstWithUsername(order + [id], users, name) ==
      if FirstWithUsername(order, users, name).Some? then FirstWithUsername(order, users, name)
      else if users[id].username == name then Some(|order|) else None
  {
    if order != [] {
      assert (order + [id])[1..] == order[1..] + [id];
      FirstWithUsernameAppend(order[1..], users, name, id);
    }
  }

  /** The join `getBookings`/`getBooking` performs: the booking and its car, if the car still exists. */
  function Join(b: Booking, cars: map<string, Car>): (r: BookingWithCar)
    ensures r.booking == b
    ensures r.car.Some? <==> b.carId in cars
    ensures r.car.Some? ==> r.car.value == cars[b.carId]
  {
    BookingWithCar(b, Lookup(cars, b.carId))
  }

  /** Ordered newest first by creation time. */
  predicate NewestFirst(s: seq<BookingWithCar>) {
    forall i, j :: 0 <= i < j < |s| ==> s[i].booking.createdAt >= s[j].booking.createdAt
  }

  /** Inserts `x` in front of the first entry that is not newer than it. */
  function InsertByDate(x: BookingWithCar, s: seq<BookingWithCar>): (r: seq<BookingWithCar>)
    ensures multiset(r) == multiset(s) + multiset{x}
  {
    if s == [] then [x]
    else if x.booking.createdAt >= s[0].booking.createdAt then [x] + s
    else
      assert s == [s[0]] + s[1..];
      [s[0]] + InsertByDate(x, s[1..])
  }

  /** Inserting into a newest-first list keeps it newest first. */
  lemma {:induction false} InsertByDateNewestFirst(x: BookingWithCar, s: seq<BookingWithCar>)
    requires NewestFirst(s)
    ensures NewestFirst(InsertByDate(x, s))
  {
    if s != [] && x.booking.createdAt < s[0].booking.createdAt {
      var rest := InsertByDate(x, s[1..]);
      InsertByDateNewestFirst(x, s[1..]);
      forall j | 0 <= j < |rest| ensures s[0].booking.createdAt >= rest[j].booking.createdAt {
        assert rest[j] in multiset(rest);
        if rest[j] != x {
          assert rest[j] in multiset(s[1..]);
          var k :| 0 <= k < |s[1..]| && s[1..][k] == rest[j];
          assert s[k + 1] == rest[j];
        }
      }
      var r := [s[0]] + rest;
      forall i, j | 0 <= i < j < |r| ensures r[i].booking.createdAt >= r[j].booking.createdAt {
        if i == 0 {
          assert r[j] == rest[j - 1];
        } else {
          assert r[i] == rest[i - 1] && r[j] == rest[j - 1];
        }
      }
    }
  }

  /** The comparator sort `getBookings` applies, by insertion: newest first. */
  function SortNewestFirst(s: seq<BookingWithCar>): (r: seq<BookingWithCar>)
    ensures multiset(r) == multiset(s)
  {
    if s == [] then []
    else
      assert s == [s[0]] + s[1..];
      InsertByDate(s[0], SortNewestFirst(s[1..]))
  }

  /** The sort's result is ordered newest first. */
  lemma {:induction false} SortIsNewestFirst(s: seq<BookingWithCar>)
    ensures NewestFirst(SortNewestFirst(s))
  {
    if s != [] {
      SortIsNewestFirst(s[1..]);
      InsertByDateNewestFirst(s[0], SortNewestFirst(s[1..]));
    }
  }

  /** The bookings listed in `order`, each joined with its car. */
  function JoinInOrder(order: seq<string>, bookings: map<string, Booking>, cars: map<string, Car>): (r: seq<BookingWithCar>)
    requires forall i :: 0 <= i < |order| ==> order[i] in bookings
    ensures |r| == |order|
    ensures forall i :: 0 <= i < |r| ==> r[i] == Join(bookings[order[i]], cars)
  {
    seq(|order|, i requires 0 <= i < |order| => Join(bookings[order[i]], cars))
  }

  /** A rearrangement of the joined bookings holds each stored booking, with its car, and nothing else. */
  lemma ListingMembers(order: seq<string>, bookings: map<string, Booking>, cars: map<string, Car>, r: seq<BookingWithCar>)
    requires Tracks(order, bookings.Keys)
    requires forall k :: k in bookings ==> bookings[k].id == k
    requires multiset(r) == multiset(JoinInOrder(order, bookings, cars))
    ensures forall i :: 0 <= i < |r| ==>
      r[i].booking.id in bookings && r[i] == Join(bookings[r[i].booking.id], cars)
    ensures forall id :: id in bookings ==> Join(bookings[id], cars) in r
  {
    var joined := JoinInOrder(order, bookings, cars);
    forall i | 0 <= i < |r|
      ensures r[i].booking.id in bookings && r[i] == Join(bookings[r[i].booking.id], cars)
    {
      assert r[i] in multiset(joined);
      var k :| 0 <= k < |joined| && joined[k] == r[i];
      assert bookings[order[k]].id == order[k];
    }
    forall id | id in bookings ensures Join(bookings[id], cars) in r {
      var k :| 0 <= k < |order| && order[k] == id;
      assert joined[k] in multiset(r);
    }
  }

  /** A rearrangement of the joined bookings has one entry per stored booking. */
  lemma ListingLength(order: seq<string>, bookings: map<string, Booking>, cars: map<string, Car>, r: seq<BookingWithCar>)
    requires Tracks(order, bookings.Keys)
    requires multiset(r) == multiset(JoinInOrder(order, bookings, cars))
    ensures |r| == |bookings|
  {
    assert |r| == |multiset(r)|;
    ListingCount(order, bookings.Keys);
  }

  class MemStorage {
    var users: map<string, User>
    var userOrder: seq<string>
    var cars: map<string, Car>
    var carOrder: seq<string>
    var bookings: map<string, Booking>
    var bookingOrder: seq<string>

    /** Each map's insertion order lists its keys, and every record is stored under its own id. */
    ghost predicate Valid()
      reads this
    {
      && Tracks(userOrder, users.Keys)
      && Tracks(carOrder, cars.Keys)
      && Tracks(bookingOrder, bookings.Keys)
      && (forall k :: k in users ==> users[k].id == k)
      && (forall k :: k in cars ==> cars[k].id == k)
      && (forall k :: k in bookings ==> bookings[k].id == k)
    }

    constructor ()
      ensures Valid()
      ensures users == map[] && cars == map[] && bookings == map[]
    {
      users, userOrder := map[], [];
      cars, carOrder := map[], [];
      bookings, bookingOrder := map[], [];
    }

    method GetUser(id: string) returns (r: Option<User>)
      ensures r == Lookup(users, id)
    {
      r := Lookup(users, id);
    }

    /** No user listed before position `i` of the insertion order has that username. */
    ghost predicate NoneNamedBefore(i: int, name: string)
      reads this
      requires Valid()
    {
      forall j :: 0 <= j < i && j < |userOrder| ==> users[userOrder[j]].username != name
    }

    /** `getUserByUsername`: the first user, in insertion order, with that username. */
    function UserByUsername(name: string): (r: Option<User>)
      reads this
      requires Valid()
      ensures r.Some? ==> r.value in users.Values && r.value.username == name
      ensures r.None? <==> forall k :: k in users ==> users[k].username != name
      ensures r.Some? ==>
        exists i :: 0 <= i < |userOrder| && r.value == users[userOrder[i]] && NoneNamedBefore(i, name)
    {
      match FirstWithUsername(userOrder, users, name)
      case None => None
      case Some(i) => Some(users[userOrder[i]])
    }

    /**
     * `createUser`: stores the user under a fresh id with the password's
     * hash and the default role. Usernames are not checked for uniqueness,
     * so a repeated username stays bound to the earlier user.
     */
    method CreateUser(x: InsertUser, id: string, hashed: string) returns (u: User)
      requires Valid() && id !in users
      modifies this
      ensures Valid()
      ensures u == User(id, x.username, hashed, DefaultRole)
      ensures users == old(users)[id := u] && userOrder == old(userOrder) + [id]
      ensures cars == old(cars) && carOrder == old(carOrder)
      ensures bookings == old(bookings) && bookingOrder == old(bookingOrder)
      ensures UserByUsername(x.username) ==
        if old(UserByUsername(x.username)).Some? then old(UserByUsername(x.username)) else Some(u)
    {
      u := User(id, x.username, hashed, DefaultRole);
      ghost var oldOrder := userOrder;
      ghost var oldFirst := FirstWithUsername(userOrder, users, x.username);
      users := users[id := u];
      userOrder := userOrder + [id];
      FirstWithUsernameAppend(oldOrder, users, x.username, id);
      assert FirstWithUsername(oldOrder, users, x.username) == oldFirst by {
        FirstWithUsernameFrame(oldOrder, old(users), users, x.username);
      }
      if oldFirst.Some? {
        assert userOrder[oldFirst.value] == oldOrder[oldFirst.value];
      }
    }

    /**
     * `authenticateUser`: succeeds exactly when the first user with that
     * name exists and `matches` (the password-hash comparison) accepts the
     * password against that user's stored hash.
     */
    method AuthenticateUser(name: string, password: string, matches: (string, string) -> bool)
      returns (r: Option<User>)
      requires Valid()
      ensures r.Some? <==> UserByUsername(name).Some? && matches(password, UserByUsername(name).value.hashedPassword)
      ensures r.Some? ==> r == UserByUsername(name) && r.value.username == name
    {
      var user := UserByUsername(name);
      if user.None? {
        return None;
      }
      if !matches(password, user.value.hashedPassword) {
        return None;
      }
      r := user;
    }

    /** `getCars`: every car, in insertion order. */
    function CarList(): (r: seq<Car>)
      reads this
      requires Valid()
      ensures |r| == |carOrder| == |cars|
      ensures forall i :: 0 <= i < |r| ==> r[i] == cars[carOrder[i]] && r[i].id == carOrder[i]
      ensures forall k :: k in cars ==> cars[k] in r
    {
      ListingCount(carOrder, cars.Keys);
      Values(carOrder, cars)
    }

    /** `getCar`: the car stored under `id`, which carries that id, or nothing. */
    method GetCar(id: string) returns (r: Option<Car>)
      requires Valid()
      ensures r.Some? <==> id in cars
      ensures r.Some? ==> r.value == cars[id] && r.value.id == id
    {
      r := Lookup(cars, id);
    }

    /** `createCar`: stores the body under the fresh id `car-<uuid>`; only the car map changes. */
    method CreateCar(x: InsertCar, uuid: string) returns (car: Car)
      requires Valid() && "car-" + uuid !in cars
      modifies this
      ensures Valid()
      ensures car == CarOf("car-" + uuid, x)
      ensures cars == old(cars)[car.id := car] && carOrder == old(carOrder) + [car.id]
      ensures users == old(users) && userOrder == old(userOrder)
      ensures bookings == old(bookings) && bookingOrder == old(bookingOrder)
    {
      car := CarOf("car-" + uuid, x);
      cars := cars[car.id := car];
      carOrder := carOrder + [car.id];
    }

    /** `updateCar`: shallow-merges the patch into an existing car; an absent id changes nothing. */
    method UpdateCar(id: string, p: CarPatch) returns (r: Option<Car>)
      requires Valid()
      modifies this
      ensures Valid()
      ensures id !in old(cars) ==> r.None? && cars == old(cars)
      ensures id in old(cars) ==> r == Some(MergeCar(old(cars)[id], p)) && cars == old(cars)[id := r.value]
      ensures carOrder == old(carOrder)
      ensures users == old(users) && userOrder == old(userOrder)
      ensures bookings == old(bookings) && bookingOrder == old(bookingOrder)
    {
      if id !in cars {
        return None;
      }
      var updated := MergeCar(cars[id], p);
      cars := cars[id := updated];
      r := Some(updated);
    }

    /** `deleteCar`: reports whether the id was present. Bookings that refer to the car are kept. */
    method DeleteCar(id: string) returns (deleted: bool)
      requires Valid()
      modifies this
      ensures Valid()
      ensures deleted == (id in old(cars))
      ensures cars == old(cars) - {id} && carOrder == Without(old(carOrder), id)
      ensures users == old(users) && userOrder == old(userOrder)
      ensures bookings == old(bookings) && bookingOrder == old(bookingOrder)
    {
      deleted := id in cars;
      cars := cars - {id};
      FilterDistinct(carOrder, k => k != id);
      carOrder := Without(carOrder, id);
    }

    /** `getBookings`: every stored booking exactly once, joined with its car, newest first. */
    method GetBookings() returns (r: seq<BookingWithCar>)
      requires Valid()
      ensures |r| == |bookings|
      ensures NewestFirst(r)
      ensures forall i :: 0 <= i < |r| ==>
        r[i].booking.id in bookings && r[i] == Join(bookings[r[i].booking.id], cars)
      ensures forall id :: id in bookings ==> Join(bookings[id], cars) in r
    {
      var joined := JoinInOrder(bookingOrder, bookings, cars);
      r := SortNewestFirst(joined);
      SortIsNewestFirst(joined);
      ListingMembers(bookingOrder, bookings, cars, r);
      ListingLength(bookingOrder, bookings, cars, r);
    }

    /** `getBooking`: the booking joined with its car, or nothing for an unknown id. */
    method GetBooking(id: string) returns (r: Option<BookingWithCar>)
      ensures id !in bookings ==> r.None?
      ensures id in bookings ==> r == Some(Join(bookings[id], cars))
    {
      if id !in bookings {
        return None;
      }
      r := Some(Join(bookings[id], cars));
    }

    /** `createBooking`: stores the body under `booking-<uuid>`, stamped `now`; cars are untouched. */
    method CreateBooking(x: InsertBooking, uuid: string, now: int) returns (b: Booking)
      requires Valid() && "booking-" + uuid !in bookings
      modifies this
      ensures Valid()
      ensures b == BookingOf("booking-" + uuid, now, x)
      ensures bookings == old(bookings)[b.id := b] && bookingOrder == old(bookingOrder) + [b.id]
      ensures cars == old(cars) && carOrder == old(carOrder)
      ensures users == old(users) && userOrder == old(userOrder)
    {
      b := BookingOf("booking-" + uuid, now, x);
      bookings := bookings[b.id := b];
      bookingOrder := bookingOrder + [b.id];
    }

    /**
     * `updateBooking`: merges the patch and then cascades onto the car the
     * booking referenced BEFORE the merge; an unknown id changes nothing.
     */
    method UpdateBooking(id: string, p: BookingPatch) returns (r: Option<Booking>)
      requires Valid()
      modifies this
      ensures Valid()
      ensures id !in old(bookings) ==> r.None? && bookings == old(bookings) && cars == old(cars)
      ensures id in old(bookings) ==>
        && r == Some(MergeBooking(old(bookings)[id], p))
        && bookings == old(bookings)[id := r.value]
        && cars == Cascade(old(cars), old(bookings)[id].carId, p.status)
      ensures carOrder == old(carOrder) && bookingOrder == old(bookingOrder)
      ensures users == old(users) && userOrder == old(userOrder)
    {
      if id !in bookings {
        return None;
      }
      var booking := bookings[id];
      var updated := MergeBooking(booking, p);
      bookings := bookings[id := updated];
      if p.status == Some(Renting) {
        if booking.carId in cars {
          cars := cars[booking.carId := cars[booking.carId].(status := Some(Rented))];
        }
      } else if p.status == Some(Returned) || p.status == Some(Cancelled) {
        if booking.carId in cars {
          cars := cars[booking.carId := cars[booking.carId].(status := Some(Available))];
        }
      }
      r := Some(updated);
    }

    /** `deleteBooking`: reports whether the id was present; no car status is reverted. */
    method DeleteBooking(id: string) returns (deleted: bool)
      requires Valid()
      modifies this
      ensures Valid()
      ensures deleted == (id in old(bookings))
      ensures bookings == old(bookings) - {id} && bookingOrder == Without(old(bookingOrder), id)
      ensures cars == old(cars) && carOrder == old(carOrder)
      ensures users == old(users) && userOrder == old(userOrder)
    {
      deleted := id in bookings;
      bookings := bookings - {id};
      FilterDistinct(bookingOrder, k => k != id);
      bookingOrder := Without(bookingOrder, id);
    }
  }

  /** The first-match search only looks at the users listed in `order`. */
  lemma {:induction false} FirstWithUsernameFrame(order: seq<string>, m1: map<string, User>, m2: map<string, User>, name: string)
    requires forall i :: 0 <= i < |order| ==> order[i] in m1 && order[i] in m2 && m1[order[i]] == m2[order[i]]
    ensures FirstWithUsername(order, m1, name) == FirstWithUsername(order, m2, name)
  {
    if order != [] {
      FirstWithUsernameFrame(order[1..], m1, m2, name);
    }
  }
}
