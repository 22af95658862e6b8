/** The admin car page: the car form's validation schema, its defaults, the edit dialog, submission and search. */
module AdminCars {
  import opened Wrappers
  import opened Seqs
  import opened Text
  import opened Schema
  import opened Storage

  /** The car form's fields as the inputs hold them; the enumerations are still text. */
  datatype CarFormValues = CarFormValues(
    brand: string,
    model: string,
    year: int,
    carType: string,
    transmission: string,
    fuel: string,
    seats: int,
    pricePerDay: int,
    image: string,
    description: Option<string>,
    status: string,
    features: Option<string>)

  /** The field a validation message is attached to. */
  datatype CarField = Brand | Model | Year | TypeField | TransmissionField | FuelField | Seats | Price | Image | Status

  /** Oldest model year the form accepts. */
  const MinYear := 1990
  /** Lowest daily rate the form accepts, in VND. */
  const MinPricePerDay := 100000

  const AllCarFields: set<CarField> :=
    {Brand, Model, Year, TypeField, TransmissionField, FuelField, Seats, Price, Image, Status}

  /**
   * Whether the car schema rejects field `f`. `currentYear` is the clock's
   * year and `isUrl` the schema's URL check, both outside this model.
   */
  predicate Rejects(v: CarFormValues, currentYear: int, isUrl: string -> bool, f: CarField) {
    match f
    case Brand => |v.brand| < 1
    case Model => |v.model| < 1
    case Year => v.year < MinYear || v.year > currentYear + 1
    case TypeField => ParseCarType(v.carType).None?
    case TransmissionField => ParseTransmission(v.transmission).None?
    case FuelField => ParseFuel(v.fuel).None?
    case Seats => v.seats < 2 || v.seats > 16
    case Price => v.pricePerDay < MinPricePerDay
    case Image => !isUrl(v.image)
    case Status => ParseCarStatus(v.status).None?
  }

  /** The set of fields the car schema reports errors on. */
  function CarFormErrors(v: CarFormValues, currentYear: int, isUrl: string -> bool): (errs: set<CarField>)
    ensures Brand in errs <==> v.brand == ""
    ensures Model in errs <==> v.model == ""
    ensures Year in errs <==> !(MinYear <= v.year <= currentYear + 1)
    ensures TypeField in errs <==> v.carType !in CarTypeNames
    ensures TransmissionField in errs <==> v.transmission !in TransmissionNames
    ensures FuelField in errs <==> v.fuel !in FuelNames
    ensures Seats in errs <==> !(2 <= v.seats <= 16)
    ensures Price in errs <==> v.pricePerDay < MinPricePerDay
    ensures Image in errs <==> !isUrl(v.image)
    ensures Status in errs <==> v.status !in CarStatusNames
  {
    set f | f in AllCarFields && Rejects(v, currentYear, isUrl, f)
  }

  /** The body `onSubmit` receives once the schema accepts the form, and nothing otherwise. */
  function Validated(v: CarFormValues, currentYear: int, isUrl: string -> bool): (r: Option<InsertCar>)
    ensures r.Some? <==> CarFormErrors(v, currentYear, isUrl) == {}
    ensures r.Some? ==>
      && r.value.brand == v.brand && r.value.model == v.model && r.value.year == v.year
      && CarTypeName(r.value.carType) == v.carType
      && TransmissionName(r.value.transmission) == v.transmission
      && FuelName(r.value.fuel) == v.fuel
      && r.value.seats == v.seats && r.value.pricePerDay == v.pricePerDay && r.value.image == v.image
      && r.value.description == v.description && r.value.features == v.features
      && r.value.status.Some? && CarStatusName(r.value.status.value) == v.status
    ensures r.Some? ==>
      MinYear <= r.value.year <= currentYear + 1 && 2 <= r.value.seats <= 16 && r.value.pricePerDay >= MinPricePerDay
  {
    var t := ParseCarType(v.carType);
    var m := ParseTransmission(v.transmission);
    var f := ParseFuel(v.fuel);
    var s := ParseCarStatus(v.status);
    if CarFormErrors(v, currentYear, isUrl) != {} then None
    else
      Some(InsertCar(v.brand, v.model, v.year, t.value, m.value, f.value, v.seats, v.pricePerDay,
                     v.image, v.description, Some(s.value), v.features))
  }

  /** The values the "add car" dialog opens with: every enumeration and numeric field already within its bounds. */
  function Defaults(currentYear: int): (v: CarFormValues)
    ensures v.brand == "" && v.model == "" && v.image == "" && v.year == currentYear
    ensures ParseCarType(v.carType).Some? && ParseTransmission(v.transmission).Some?
    ensures ParseFuel(v.fuel).Some? && ParseCarStatus(v.status) == Some(Available)
    ensures 2 <= v.seats <= 16 && v.pricePerDay >= MinPricePerDay
  {
    CarFormValues("", "", currentYear, "sedan", "automatic", "gasoline", 4, 500000, "", Some(""), "available", Some(""))
  }

  /** An untouched "add car" form is refused for its brand and model, and for its image unless the empty text counts as a URL. */
  lemma DefaultsNeedBrandModelImage(currentYear: int, isUrl: string -> bool)
    ensures CarFormErrors(Defaults(currentYear), currentYear, isUrl) ==
      {Brand, Model} + (if currentYear < MinYear then {Year} else {}) + (if isUrl("") then {} else {Image})
  {
    var errs := CarFormErrors(Defaults(currentYear), currentYear, isUrl);
    assert TypeField !in errs && TransmissionField !in errs && FuelField !in errs && Status !in errs;
  }

  /**
   * The values the edit dialog opens with for a stored car: an absent
   * description or feature list shows as empty text, and an absent status
   * as an empty select, which names no status.
   */
  function EditValues(c: Car): (v: CarFormValues)
    ensures v.description == Some(c.description.GetOr("")) && v.features == Some(c.features.GetOr(""))
    ensures v.brand == c.brand && v.model == c.model && v.year == c.year && v.image == c.image
    ensures v.seats == c.seats && v.pricePerDay == c.pricePerDay
    ensures ParseCarType(v.carType) == Some(c.carType) && ParseTransmission(v.transmission) == Some(c.transmission)
    ensures ParseFuel(v.fuel) == Some(c.fuel) && ParseCarStatus(v.status) == c.status
  {
    NamesRoundTrip(c.carType, c.transmission, c.fuel, c.status.GetOr(Available), Pending);
    CarFormValues(c.brand, c.model, c.year, CarTypeName(c.carType), TransmissionName(c.transmission),
                  FuelName(c.fuel), c.seats, c.pricePerDay, c.image, Some(c.description.GetOr("")),
                  if c.status.Some? then CarStatusName(c.status.value) else "", Some(c.features.GetOr("")))
  }

  /** What submitting the dialog sends: a creation when no car is being edited, otherwise the whole form as a patch of that car. */
  datatype CarRequest = CreateCar(body: InsertCar) | UpdateCar(id: string, patch: CarPatch)

  function OnSubmit(editing: Option<Car>, data: InsertCar): (r: CarRequest)
    ensures r.CreateCar? <==> editing.None?
    ensures r.CreateCar? ==> r.body == data
    ensures r.UpdateCar? ==> r.id == editing.value.id && r.patch == FullPatch(data)
  {
    if editing.Some? then UpdateCar(editing.value.id, FullPatch(data)) else CreateCar(data)
  }

  /**
   * Opening the edit dialog on a car whose other fields the form accepts:
   * the form can be saved exactly when the car has a status, and saving it
   * unchanged leaves the car as it was, except that an absent description or
   * feature list becomes empty text.
   */
  lemma UnchangedEditKeepsCar(c: Car, currentYear: int, isUrl: string -> bool)
    requires c.brand != "" && c.model != "" && MinYear <= c.year <= currentYear + 1
    requires 2 <= c.seats <= 16 && c.pricePerDay >= MinPricePerDay && isUrl(c.image)
    ensures Validated(EditValues(c), currentYear, isUrl).Some? <==> c.status.Some?
    ensures c.status.Some? ==>
      var req := OnSubmit(Some(c), Validated(EditValues(c), currentYear, isUrl).value);
      req.UpdateCar? && req.id == c.id &&
      MergeCar(c, req.patch) == c.(description := Some(c.description.GetOr("")), features := Some(c.features.GetOr("")))
  {
    var v := EditValues(c);
    NamesRoundTrip(c.carType, c.transmission, c.fuel, c.status.GetOr(Available), Pending);
    if c.status.Some? {
      assert CarFormErrors(v, currentYear, isUrl) == {};
      var x := Validated(v, currentYear, isUrl).value;
      assert x.carType == c.carType && x.transmission == c.transmission && x.fuel == c.fuel;
      assert x.status == c.status;
    } else {
      assert Status in CarFormErrors(v, currentYear, isUrl);
    }
  }

  /** The admin search: brand or model contains the query, ignoring case. */
  predicate MatchesQuery(c: Car, q: string)
    ensures q == "" ==> MatchesQuery(c, q)
    ensures Lower(q) == Lower(c.brand) || Lower(q) == Lower(c.model) ==> MatchesQuery(c, q)
  {
    IncludesEmpty(Lower(c.brand));
    IncludesSelf(Lower(c.brand));
    IncludesSelf(Lower(c.model));
    Includes(Lower(c.brand), Lower(q)) || Includes(Lower(c.model), Lower(q))
  }

  /** `cars?.filter(...)`: nothing until the cars have loaded, then the matching cars in fetched order. */
  function SearchCars(cars: Option<seq<Car>>, q: string): (r: Option<seq<Car>>)
    ensures r.Some? <==> cars.Some?
    ensures r.Some? ==> IsSubseq(r.value, cars.value)
    ensures r.Some? ==> forall i :: 0 <= i < |r.value| ==> MatchesQuery(r.value[i], q)
    ensures r.Some? ==> forall i :: 0 <= i < |cars.value| && MatchesQuery(cars.value[i], q) ==> cars.value[i] in r.value
  {
    if cars.None? then None else Some(Filter(cars.value, c => MatchesQuery(c, q)))
  }

  /** An empty search box lists every car, in fetched order. */
  lemma EmptyQueryListsAll(cars: seq<Car>)
    ensures SearchCars(Some(cars), "") == Some(cars)
  {
    forall i | 0 <= i < |cars| ensures MatchesQuery(cars[i], "") {
      IncludesEmpty(Lower(cars[i].brand));
    }
    FilterAll(cars, c => MatchesQuery(c, ""));
  }
}
