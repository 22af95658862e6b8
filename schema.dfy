/**
 * The shared record shapes: the enumerations, the three tables (cars,
 * bookings, users), their insert shapes and the label maps.
 */
module Schema {
  import opened Wrappers

  datatype CarType = Sedan | Suv | Sports | Hatchback | Pickup
  datatype Transmission = Automatic | Manual
  datatype Fuel = Gasoline | Diesel | Electric | Hybrid
  datatype CarStatus = Available | Rented | Maintenance
  datatype BookingStatus = Pending | Confirmed | Renting | Returned | Cancelled

  /** The enumeration tuples, in declaration order, as the text the API carries. */
  const CarTypeNames: seq<string> := ["sedan", "suv", "sports", "hatchback", "pickup"]
  const TransmissionNames: seq<string> := ["automatic", "manual"]
  const FuelNames: seq<string> := ["gasoline", "diesel", "electric", "hybrid"]
  const CarStatusNames: seq<string> := ["available", "rented", "maintenance"]
  const BookingStatusNames: seq<string> := ["pending", "confirmed", "renting", "returned", "cancelled"]

  function CarTypeName(t: CarType): string {
    match t
    case Sedan => "sedan"
    case Suv => "suv"
    case Sports => "sports"
    case Hatchback => "hatchback"
    case Pickup => "pickup"
  }

  function TransmissionName(t: Transmission): string {
    match t
    case Automatic => "automatic"
    case Manual => "manual"
  }

  function FuelName(f: Fuel): string {
    match f
    case Gasoline => "gasoline"
    case Diesel => "diesel"
    case Electric => "electric"
    case Hybrid => "hybrid"
  }

  function CarStatusName(s: CarStatus): string {
    match s
    case Available => "available"
    case Rented => "rented"
    case Maintenance => "maintenance"
  }

  function BookingStatusName(s: BookingStatus): string {
    match s
    case Pending => "pending"
    case Confirmed => "confirmed"
    case Renting => "renting"
    case Returned => "returned"
    case Cancelled => "cancelled"
  }

  /** `z.enum(carTypes)`: accepts exactly the names in the tuple. */
  function ParseCarType(s: string): (r: Option<CarType>)
    ensures r.Some? <==> s in CarTypeNames
    ensures r.Some? ==> CarTypeName(r.value) == s
  {
    if s == "sedan" then Some(Sedan)
    else if s == "suv" then Some(Suv)
    else if s == "sports" then Some(Sports)
    else if s == "hatchback" then Some(Hatchback)
    else if s == "pickup" then Some(Pickup)
    else None
  }

  /** `z.enum(transmissionTypes)`. */
  function ParseTransmission(s: string): (r: Option<Transmission>)
    ensures r.Some? <==> s in TransmissionNames
    ensures r.Some? ==> TransmissionName(r.value) == s
  {
    if s == "automatic" then Some(Automatic)
    else if s == "manual" then Some(Manual)
    else None
  }

  /** `z.enum(fuelTypes)`. */
  function ParseFuel(s: string): (r: Option<Fuel>)
    ensures r.Some? <==> s in FuelNames
    ensures r.Some? ==> FuelName(r.value) == s
  {
    if s == "gasoline" then Some(Gasoline)
    else if s == "diesel" then Some(Diesel)
    else if s == "electric" then Some(Electric)
    else if s == "hybrid" then Some(Hybrid)
    else None
  }

  /** `z.enum(carStatuses)`: a car status is exactly one of the three names. */
  function ParseCarStatus(s: string): (r: Option<CarStatus>)
    ensures r.Some? <==> s in CarStatusNames
    ensures r.Some? ==> CarStatusName(r.value) == s
  {
    if s == "available" then Some(Available)
    else if s == "rented" then Some(Rented)
    else if s == "maintenance" then Some(Maintenance)
    else None
  }

  /** `z.enum(bookingStatuses)`: a booking status is exactly one of the five names. */
  function ParseBookingStatus(s: string): (r: Option<BookingStatus>)
    ensures r.Some? <==> s in BookingStatusNames
    ensures r.Some? ==> BookingStatusName(r.value) == s
  {
    if s == "pending" then Some(Pending)
    else if s == "confirmed" then Some(Confirmed)
    else if s == "renting" then Some(Renting)
    else if s == "returned" then Some(Returned)
    else if s == "cancelled" then Some(Cancelled)
    else None
  }

  /** Every enumeration value has its name in the tuple and parses back to itself. */
  lemma NamesRoundTrip(t: CarType, m: Transmission, f: Fuel, c: CarStatus, b: BookingStatus)
    ensures ParseCarType(CarTypeName(t)) == Some(t)
    ensures ParseTransmission(TransmissionName(m)) == Some(m)
    ensures ParseFuel(FuelName(f)) == Some(f)
    ensures ParseCarStatus(CarStatusName(c)) == Some(c)
    ensures ParseBookingStatus(BookingStatusName(b)) == Some(b)
  {
  }

  /**
   * A car row. `description` and `features` are nullable columns. `status`
   * is absent when the car was created from a body without one: the
   * in-memory store copies the body as it is and never applies the column
   * default `available`.
   */
  datatype Car = Car(
    id: string,
    brand: string,
    model: string,
    year: int,
    carType: CarType,
    transmission: Transmission,
    fuel: Fuel,
    seats: int,
    pricePerDay: int,
    image: string,
    description: Option<string>,
    status: Option<CarStatus>,
    features: Option<string>)

  /** The car insert shape: no `id`; `status` may be omitted because its column has a default. */
  datatype InsertCar = InsertCar(
    brand: string,
    model: string,
    year: int,
    carType: CarType,
    transmission: Transmission,
    fuel: Fuel,
    seats: int,
    pricePerDay: int,
    image: string,
    description: Option<string>,
    status: Option<CarStatus>,
    features: Option<string>)

  /** A booking row. Dates are kept as the `yyyy-mm-dd` text the client sends; `createdAt` is a timestamp. */
  datatype Booking = Booking(
    id: string,
    carId: string,
    customerName: string,
    customerPhone: string,
    customerId: string,
    startDate: string,
    endDate: string,
    totalPrice: int,
    status: BookingStatus,
    notes: Option<string>,
    createdAt: int)

  /** The booking insert shape: no `id`, no `createdAt`; `status` and `notes` optional. */
  datatype InsertBooking = InsertBooking(
    carId: string,
    customerName: string,
    customerPhone: string,
    customerId: string,
    startDate: string,
    endDate: string,
    totalPrice: int,
    status: Option<BookingStatus>,
    notes: Option<string>)

  /** A user row as the in-memory store keeps it: the password only as its hash. */
  datatype User = User(id: string, username: string, hashedPassword: string, role: string)

  /** The user insert shape picks only `username` and `password`: no role can be supplied. */
  datatype InsertUser = InsertUser(username: string, password: string)

  /** A booking joined with its car, absent when the car has been deleted. */
  datatype BookingWithCar = BookingWithCar(booking: Booking, car: Option<Car>)

  /** Defaults the store applies: the booking schema's status and the user role. */
  const DefaultBookingStatus: BookingStatus := Pending
  const DefaultRole: string := "customer"

  /** The car `createCar` stores for a validated insert body: the body's fields, spread as they are, under the given id. */
  function CarOf(id: string, x: InsertCar): (c: Car)
    ensures c.id == id && c.status == x.status
    ensures c.brand == x.brand && c.model == x.model && c.year == x.year && c.carType == x.carType
    ensures c.transmission == x.transmission && c.fuel == x.fuel && c.seats == x.seats
    ensures c.pricePerDay == x.pricePerDay && c.image == x.image
    ensures c.description == x.description && c.features == x.features
  {
    Car(id, x.brand, x.model, x.year, x.carType, x.transmission, x.fuel, x.seats,
        x.pricePerDay, x.image, x.description, x.status, x.features)
  }

  /** The insert body that describes an existing car: every field but the id. */
  function InsertOf(c: Car): (x: InsertCar)
    ensures CarOf(c.id, x) == c
  {
    InsertCar(c.brand, c.model, c.year, c.carType, c.transmission, c.fuel, c.seats,
              c.pricePerDay, c.image, c.description, c.status, c.features)
  }

  /** Storing a body under an id and dropping the id again gives the body back. */
  lemma CarInsertRoundTrip(id: string, x: InsertCar)
    ensures InsertOf(CarOf(id, x)) == x
    ensures CarOf(id, x).id == id
  {
  }

  /** The booking a validated insert body describes; an omitted status takes the default `pending`. */
  function BookingOf(id: string, createdAt: int, x: InsertBooking): (b: Booking)
    ensures b.id == id && b.createdAt == createdAt && b.carId == x.carId
    ensures b.customerName == x.customerName && b.customerPhone == x.customerPhone && b.customerId == x.customerId
    ensures b.startDate == x.startDate && b.endDate == x.endDate
    ensures b.status == (if x.status.Some? then x.status.value else Pending)
    ensures b.totalPrice == x.totalPrice && b.notes == x.notes
  {
    Booking(id, x.carId, x.customerName, x.customerPhone, x.customerId, x.startDate,
            x.endDate, x.totalPrice, x.status.GetOr(DefaultBookingStatus), x.notes, createdAt)
  }

  /** Vietnamese display labels; every enumeration value has one. */
  function CarTypeLabel(t: CarType): (r: string)
    ensures r != ""
  {
    match t
    case Sedan => "Sedan"
    case Suv => "SUV"
    case Sports => "Xe Thể Thao"
    case Hatchback => "Hatchback"
    case Pickup => "Bán Tải"
  }

  function TransmissionLabel(t: Transmission): (r: string)
    ensures r != ""
  {
    match t
    case Automatic => "Tự Động"
    case Manual => "Số Sàn"
  }

  function FuelLabel(f: Fuel): (r: string)
    ensures r != ""
  {
    match f
    case Gasoline => "Xăng"
    case Diesel => "Dầu Diesel"
    case Electric => "Điện"
    case Hybrid => "Hybrid"
  }

  function CarStatusLabel(s: CarStatus): (r: string)
    ensures r != ""
  {
    match s
    case Available => "Sẵn Sàng"
    case Rented => "Đang Cho Thuê"
    case Maintenance => "Bảo Trì"
  }

  function BookingStatusLabel(s: BookingStatus): (r: string)
    ensures r != ""
  {
    match s
    case Pending => "Chờ Xác Nhận"
    case Confirmed => "Đã Xác Nhận"
    case Renting => "Đang Thuê"
    case Returned => "Đã Trả"
    case Cancelled => "Đã Hủy"
  }

  /** No two statuses share a label, so a label identifies its status. */
  lemma StatusLabelsDistinct(a: CarStatus, b: CarStatus, c: BookingStatus, d: BookingStatus)
    ensures CarStatusLabel(a) == CarStatusLabel(b) ==> a == b
    ensures BookingStatusLabel(c) == BookingStatusLabel(d) ==> c == d
  {
  }
}
