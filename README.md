# Car rental back office — a Dafny model

This project models the core of a small car-rental web application.

- **Server side:** an in-memory record store holds users, cars and bookings. REST handlers for `/api/cars` and `/api/bookings` sit in front of it.
- **Shared schema:** the enumerations, column defaults, insert shapes and display labels.
- **Client side:** the pure computations the pages run over car and booking lists:
  - the booking form's validation and price;
  - the catalogue filter;
  - the admin car form and searches;
  - the dashboard figures;
  - the related-car strip;
  - the home page's featured cars.

Modules follow the program's files:

| file | module | models |
|---|---|---|
| `schema.dfy` | `Schema` | `shared/schema.ts`: enumerations as datatypes, their text names and parsers, records and insert shapes, defaults, labels |
| `storage.dfy` | `Storage` | `server/storage.ts`: the class `MemStorage`, with the three maps as fields updated in place, plus the merge and cascade rules it applies |
| `routes.dfy` | `Routes` | `server/routes.ts`: one method per handler, returning a status code and a body |
| `booking_form.dfy` | `BookingForm` | `booking-form.tsx`: the validation schema, the phone pattern, the day and price state (a class), submission |
| `car_filter.dfy` | `CarFilter` | `car-filter.tsx`: the filter record and its edits |
| `cars_page.dfy` | `CarsPage` | `cars.tsx`: the catalogue filter predicate |
| `admin_cars.dfy` | `AdminCars` | `admin/cars.tsx`: the car form, its defaults, the edit dialog, submission, search |
| `admin_bookings.dfy` | `AdminBookings` | `admin/bookings.tsx`: the search and status filter, and the status-change patch |
| `dashboard.dfy` | `Dashboard` | `admin/dashboard.tsx`: counts, revenue, recent bookings |
| `car_detail.dfy` | `CarDetail` | `car-detail.tsx`: related cars, feature list, side panel, booking payload |
| `home.dfy` | `Home` | `home.tsx`: featured cars |
| `scenario.dfy` | `Scenario` | end-to-end runs through the handlers: a Camry rental, create-then-read, delete twice |
| `wrappers.dfy`, `seqs.dfy`, `text.dfy` | `Wrappers`, `Seqs`, `Text` | `Option`; `filter` and `slice`; lower-casing, `includes`, `trim`, `split` |

Conventions of the model:

- **Ids:** an id is `"car-"` or `"booking-"` followed by a `uuid` parameter. A `requires` says the resulting id is not yet in use, standing in for `randomUUID`.
- **Passwords:** the password hash is a parameter of `CreateUser`. The hash comparison is a function parameter `matches` of `AuthenticateUser`.
- **Dates:**
  - The form's dates are day numbers.
  - A booking's stored dates are the text the client sends.
  - `createdAt` is an integer timestamp.
  - The clock's year is a parameter.
- **Car status:** a car's status is optional (`Option<CarStatus>`): the store keeps whatever the body carried, and a body may omit it.
- **Insertion order:** each JavaScript `Map` keeps its keys in insertion order. The class mirrors this with one order sequence per map. `Valid()` ties each sequence to its map's keys, each key once, and each record to its own id.

Behaviour of the code that the model keeps as it is:

- The server's car insert schema is derived from the table (`shared/schema.ts:42`). It does not check the year, seat, price or URL bounds. Only the admin form (`AdminCars.CarFormErrors`) does, so `Routes.PostCar` stores any body that parses.
- The status column's default `available` (`shared/schema.ts:38`) belongs to the database table. The in-memory store copies the body as it is (`server/storage.ts:240`), so a car posted without a status is stored without one. Every booking of such a car is refused as unavailable (`Scenario.StatuslessCarRefused`).
- No handler checks a booking-status transition: any new status is accepted, whatever the old one. No handler consults a session or a role.

## Model

| member | source | states |
|---|---|---|
| Schema.ParseCarType | shared/schema.ts:6 | a text parses exactly when it is one of the five car type names, and parses to the type with that name |
| Schema.ParseTransmission | shared/schema.ts:10 | accepted exactly for the two transmission names, yielding the value of that name |
| Schema.ParseFuel | shared/schema.ts:14 | accepted exactly for the four fuel names, yielding the value of that name |
| Schema.ParseCarStatus | shared/schema.ts:18 | accepted exactly for available, rented and maintenance, yielding the status of that name |
| Schema.ParseBookingStatus | shared/schema.ts:22 | accepted exactly for the five booking status names, yielding the status of that name |
| Schema.NamesRoundTrip | shared/schema.ts:6-23 | every enumeration value's name parses back to that value |
| Schema.CarOf | server/storage.ts:238-243 | the stored car carries the given id and every field of the body as it is, the status included, with no default filled in |
| Schema.InsertOf | shared/schema.ts:42 | the insert shape of a car is every field but the id: storing it under the car's id gives the car back |
| Schema.CarInsertRoundTrip | shared/schema.ts:42-44 | storing a body under an id and dropping the id gives back the same body |
| Schema.BookingOf | shared/schema.ts:47-66 | a booking built from an insert body has the given id and creation time, the body's car, customer name, phone and id, both dates, price and notes, and status `pending` when the body omits it |
| Schema.CarTypeLabel | shared/schema.ts:90-96 | every car type has a non-empty label |
| Schema.TransmissionLabel | shared/schema.ts:98-101 | every transmission has a non-empty label |
| Schema.FuelLabel | shared/schema.ts:103-108 | every fuel has a non-empty label |
| Schema.CarStatusLabel | shared/schema.ts:110-114 | every car status has a non-empty label |
| Schema.BookingStatusLabel | shared/schema.ts:116-122 | every booking status has a non-empty label |
| Schema.StatusLabelsDistinct | shared/schema.ts:110-122 | different statuses have different labels, for cars and for bookings |
| Storage.MergeCar | server/storage.ts:249 | the spread keeps the car's id; the status is the patch's when present, otherwise the old one (possibly absent) |
| Storage.MergeBooking | server/storage.ts:295 | the spread keeps id and creation time; the status is the patch's when present, otherwise the old one |
| Storage.MergeLaws | server/storage.ts:245-296 | an empty patch changes nothing, and applying a patch twice equals applying it once |
| Storage.FullPatch | client/src/pages/admin/cars.tsx:197 | the patch a body amounts to carries its brand, model, image and status; a description or feature list is present exactly when the body has one |
| Storage.FullPatchReplaces | server/storage.ts:249 | merging the patch of a body yields exactly the car that body describes, under the old id, keeping the old status, description or feature list where the body has none |
| Storage.Cascade | server/storage.ts:298-308 | the cascade never adds or removes a car and never changes an id |
| Storage.CascadeEffect | server/storage.ts:298-308 | `renting` sets the referenced car to `rented`, `returned`/`cancelled` set it to `available`, keeping its other fields; other cars untouched; other or absent status, or a missing car, changes nothing |
| Storage.Values | server/storage.ts:231 | `Array.from(map.values())` lists each key's record in insertion order |
| Storage.Without | server/storage.ts:255 | `map.delete` removes the key from the insertion order and keeps every other key |
| Storage.FirstWithUsername | server/storage.ts:202-204 | `find` returns the first user in insertion order with that username, or reports that none has it |
| Storage.FirstWithUsernameAppend | server/storage.ts:201-218 | after a user is appended, an earlier match stays the answer, and the new user is found when there was none |
| Storage.FirstWithUsernameFrame | server/storage.ts:202-204 | the search depends only on the users the order lists |
| Storage.Join | server/storage.ts:258-278 | the join keeps the booking and attaches its car exactly when that car still exists |
| Storage.InsertByDate | server/storage.ts:266 | inserting into the listing keeps every entry and adds one |
| Storage.InsertByDateNewestFirst | server/storage.ts:266 | inserting into a newest-first listing keeps it newest first |
| Storage.SortNewestFirst | server/storage.ts:266 | the sort is a permutation of its input |
| Storage.SortIsNewestFirst | server/storage.ts:266 | the sort orders bookings by `createdAt`, newest first |
| Storage.JoinInOrder | server/storage.ts:259-265 | one joined entry per listed booking, in listed order |
| Storage.ListingMembers | server/storage.ts:258-267 | any rearrangement of the joined bookings holds every stored booking joined with its car, and nothing else |
| Storage.ListingLength | server/storage.ts:258-267 | any rearrangement of the joined bookings has one entry per stored booking |
| Storage.MemStorage.constructor | server/storage.ts:29-35 | the store starts with three empty maps |
| Storage.MemStorage.GetUser | server/storage.ts:197-199 | the user stored under the id, or none |
| Storage.MemStorage.UserByUsername | server/storage.ts:201-205 | the first user in insertion order with that name: no earlier user has it; none exactly when no stored user has the name |
| Storage.MemStorage.CreateUser | server/storage.ts:207-218 | stores the user under a fresh id with the hash and role `customer`; nothing else changes; a repeated username keeps resolving to the earlier user |
| Storage.MemStorage.AuthenticateUser | server/storage.ts:220-228 | succeeds exactly when the user found by name exists and the hash comparison accepts the password; the result is that user |
| Storage.MemStorage.CarList | server/storage.ts:230-232 | every stored car once, in insertion order: the i-th entry is the car under the i-th key, and every stored car is listed |
| Storage.MemStorage.GetCar | server/storage.ts:234-236 | the car stored under the id, which carries that id, or none when absent |
| Storage.MemStorage.CreateCar | server/storage.ts:238-243 | stores the body as it is under `car-<uuid>` and appends the id; users and bookings untouched |
| Storage.MemStorage.UpdateCar | server/storage.ts:245-252 | absent id: nothing changes; otherwise the merged car replaces the old one and no other car changes |
| Storage.MemStorage.DeleteCar | server/storage.ts:254-256 | reports whether the id was present; removes it; bookings that refer to it are kept |
| Storage.MemStorage.GetBookings | server/storage.ts:258-267 | every stored booking exactly once, joined with its car or none, newest first |
| Storage.MemStorage.GetBooking | server/storage.ts:269-278 | the booking joined with its car, or none for an unknown id |
| Storage.MemStorage.CreateBooking | server/storage.ts:280-289 | stores the body under `booking-<uuid>` stamped with the given time; the cars map is unchanged |
| Storage.MemStorage.UpdateBooking | server/storage.ts:291-311 | absent id: neither map changes; otherwise the merged booking is stored and the cascade is applied to the car the booking referenced before the merge |
| Storage.MemStorage.DeleteBooking | server/storage.ts:313-315 | reports whether the id was present; removes it; cars untouched |
| Routes.ListCars | server/routes.ts:12-19 | 200 with every stored car once, in insertion order |
| Routes.GetCar | server/routes.ts:21-31 | 404 when absent, otherwise 200 with the car of that id |
| Routes.PostCar | server/routes.ts:33-44 | an invalid body gives 400 and changes nothing; otherwise 201 with the stored car, whose id joins the end of the car order; bookings and users untouched |
| Routes.PatchCar | server/routes.ts:46-61 | an invalid body gives 400 and changes nothing; an absent id gives 404; otherwise 200 with the merged car; the car order, bookings and users never change |
| Routes.DeleteCar | server/routes.ts:63-73 | 204 when a car was removed, 404 when none existed; the id leaves the car order; bookings and users untouched |
| Routes.ListBookings | server/routes.ts:75-82 | 200 with every booking once, joined, newest first |
| Routes.GetBooking | server/routes.ts:84-94 | 404 when absent, otherwise 200 with the joined booking |
| Routes.PostBooking | server/routes.ts:96-116 | the creation guard: invalid body, missing car or a car not `available` (a car without a status included) each give 400 and store nothing; 201 exactly when the car exists and is available, with the id appended to the booking order; cars and users never change |
| Routes.PatchBooking | server/routes.ts:118-133 | an invalid body gives 400 and changes nothing; an absent id gives 404 and changes neither map; otherwise 200, with the merge stored and the cascade applied; both orders and the users never change |
| Routes.DeleteBooking | server/routes.ts:135-145 | 204 when a booking was removed, 404 when none existed; the id leaves the booking order; cars and users untouched |
| BookingForm.PhoneMatchesShape | client/src/components/booking-form.tsx:32 | the phone matcher accepts exactly one or more `0x` pairs (x among 3 5 7 8 9 and `\|`) followed by exactly eight digits |
| BookingForm.PhoneMatches | client/src/components/booking-form.tsx:32 | an accepted number has even length of at least 10, starts with `0` and ends in eight digits |
| BookingForm.PhoneExamples | client/src/components/booking-form.tsx:32 | a usual number passes; `\|` is accepted as a second digit; `01…` and an odd-length number fail |
| BookingForm.FormErrors | client/src/components/booking-form.tsx:30-40 | name shorter than 2, phone off-pattern, id length outside 9..12, missing dates, and an end date not after the start date (reported on the end date) are exactly the errors |
| BookingForm.TotalDays | client/src/components/booking-form.tsx:69-70 | never negative; positive exactly when the end is after the start, and then equal to the difference |
| BookingForm.TotalPrice | client/src/components/booking-form.tsx:69-71 | 0 unless the end is after the start, then the number of days times the daily rate; never negative for a non-negative rate |
| BookingForm.PriceIsDaysTimesRate | client/src/components/booking-form.tsx:69-71 | the price is always the clamped day count times the daily rate, and non-negative for a non-negative rate |
| BookingForm.AcceptedFormSpansADay | client/src/components/booking-form.tsx:34-70 | a form the schema accepts has both dates and at least one day |
| BookingForm.PriceSummary.constructor | client/src/components/booking-form.tsx:51-52 | both figures start at 0 and agree |
| BookingForm.PriceSummary.OnDatesChanged | client/src/components/booking-form.tsx:67-73 | with both dates set, the figures become the day count and the price; otherwise they stay as they were; they always agree |
| BookingForm.PriceSummary.SubmitDisabled | client/src/components/booking-form.tsx:260 | disabled while submitting and whenever the day count is 0, enabled otherwise; when enabled, at least one day is priced |
| BookingForm.PriceSummary.HandleSubmit | client/src/components/booking-form.tsx:82-84 | forwards the values unchanged with the current price, which is days times rate |
| CarFilter.ToggleSeat | client/src/components/car-filter.tsx:57-61 | a present seat count has every occurrence removed, in order; an absent one is appended; nothing else changes |
| CarFilter.ToggleSeatTwice | client/src/components/car-filter.tsx:57-60 | toggling twice restores the set of seat counts, and the exact list when the count started absent |
| CarFilter.CommitPrice | client/src/components/car-filter.tsx:53-55 | only the two price ends change |
| CarFilter.HasActiveFilters | client/src/components/car-filter.tsx:78-85 | within the slider's range, a record has no active filter exactly when it is the cleared record |
| CarFilter.ClearedIsInactive | client/src/components/car-filter.tsx:64-85 | the cleared record has no active filter; a seat toggle from it is active; a price commit is active exactly when it narrows the range |
| CarsPage.FilteredCars | client/src/pages/cars.tsx:29-54 | nothing before loading; otherwise an order-preserving sub-list holding exactly the cars every filter condition keeps |
| CarsPage.MatchesSearch | client/src/pages/cars.tsx:33-40 | a search text found in the brand or the model matches |
| CarsPage.Keep | client/src/pages/cars.tsx:29-54 | a kept car matches a non-empty search, has the chosen type and transmission unless `all`, is priced within the bounds, has a selected seat count when any is selected, and is available when only available cars are asked for; the cleared record keeps exactly the cars priced in 0..5,000,000 |
| CarsPage.InactiveFiltersOnlyBoundPrice | client/src/pages/cars.tsx:32-53 | with no active filter, a car is kept exactly when its price is within the bounds |
| CarsPage.DefaultsShowPriceBand | client/src/pages/cars.tsx:12-54 | the initial filters equal the cleared ones and keep exactly the cars priced in 0..5,000,000 |
| CarsPage.LowerKeepsIncludes | client/src/pages/cars.tsx:34-38 | lower-casing both sides keeps a substring occurrence |
| CarsPage.SearchFindsBrandAndModel | client/src/pages/cars.tsx:33-40 | any piece of brand, model or "brand model", typed in any letter case, finds the car |
| AdminCars.CarFormErrors | client/src/pages/admin/cars.tsx:68-81 | brand or model empty, year outside 1990..currentYear+1, seats outside 2..16, price below 100,000, an enumeration outside its names, or an image that is not a URL are exactly the errors |
| AdminCars.Validated | client/src/pages/admin/cars.tsx:68-81 | the form yields a body exactly when there are no errors; the body carries the fields, the parsed enumerations and satisfies every bound |
| AdminCars.DefaultsNeedBrandModelImage | client/src/pages/admin/cars.tsx:98-111 | the defaults meet every numeric and enumeration bound; the errors are brand, model, the year only if the clock is before 1990, and the image unless "" counts as a URL |
| AdminCars.Defaults | client/src/pages/admin/cars.tsx:98-111 | the add dialog opens with empty brand, model and image, the current year, valid enumeration names with status `available`, and seats and price within bounds |
| AdminCars.EditValues | client/src/pages/admin/cars.tsx:170-187 | the edit dialog shows the car's fields, its enumerations by name, empty text for an absent description or feature list, and a select that names no status for a car without one |
| AdminCars.OnSubmit | client/src/pages/admin/cars.tsx:195-201 | a create when no car is being edited, otherwise an update of the edited car's id with every form field |
| AdminCars.UnchangedEditKeepsCar | client/src/pages/admin/cars.tsx:170-201 | the unchanged dialog can be saved exactly when the car has a status; saving it leaves the car as it was, except that an absent description or feature list becomes empty text |
| AdminCars.SearchCars | client/src/pages/admin/cars.tsx:203-207 | nothing before loading; otherwise an order-preserving sub-list holding exactly the cars whose brand or model contains the query, ignoring case |
| AdminCars.MatchesQuery | client/src/pages/admin/cars.tsx:203-207 | the empty query matches every car, and the brand or the model typed in any letter case matches |
| AdminCars.EmptyQueryListsAll | client/src/pages/admin/cars.tsx:203-207 | an empty query keeps every car, in order |
| AdminBookings.FilteredBookings | client/src/pages/admin/bookings.tsx:62-72 | nothing before loading; otherwise an order-preserving sub-list holding exactly the bookings matching both the search and the status select |
| AdminBookings.MatchesSearch | client/src/pages/admin/bookings.tsx:63-67 | the empty search matches every booking; a booking whose car is gone matches exactly by name (ignoring case) or phone (as typed) |
| AdminBookings.MatchesStatus | client/src/pages/admin/bookings.tsx:68-69 | `all` and the booking's own status name match; a text that is neither `all` nor a status name matches nothing |
| AdminBookings.InitialViewListsAll | client/src/pages/admin/bookings.tsx:41-72 | an empty search with status "all" lists every booking in server order |
| AdminBookings.StatusFilterSelects | client/src/pages/admin/bookings.tsx:69 | a status name keeps only bookings in that status; a text that names no status keeps none |
| AdminBookings.OrphanFoundByCustomerOnly | client/src/pages/admin/bookings.tsx:63-67 | a booking whose car was deleted matches only by name (ignoring case) or phone (as typed) |
| AdminBookings.StatusPatch | client/src/pages/admin/bookings.tsx:102-104 | the patch carries the new status and no other field |
| AdminBookings.StatusChangeEffect | client/src/pages/admin/bookings.tsx:50-51 | on the server the status patch changes only the booking's status, and moves its car only as the cascade says |
| Dashboard.CarsIn | client/src/pages/admin/dashboard.tsx:22 | exactly the cars in that status, as an order-preserving sub-list, each as often as it occurs in the list |
| Dashboard.CountCars | client/src/pages/admin/dashboard.tsx:22 | 0 before loading; otherwise the length of the list of exactly the cars in that status, at most the total |
| Dashboard.CarsWithoutStatus | client/src/pages/admin/dashboard.tsx:171-189 | exactly the cars stored without a status, as an order-preserving sub-list, each as often as it occurs in the list |
| Dashboard.BookingsIn | client/src/pages/admin/dashboard.tsx:23-25 | exactly the bookings in that status, as an order-preserving sub-list, each as often as it occurs in the list |
| Dashboard.TotalCars | client/src/pages/admin/dashboard.tsx:21 | the number of cars, or 0 before loading |
| Dashboard.ReadyCars | client/src/pages/admin/dashboard.tsx:84 | 0 before loading; otherwise between 0 and the number of cars |
| Dashboard.PendingBookings | client/src/pages/admin/dashboard.tsx:23 | 0 before loading; otherwise the length of the list of exactly the `pending` bookings, at most the number of bookings |
| Dashboard.Returned | client/src/pages/admin/dashboard.tsx:25 | exactly the returned bookings count toward revenue: in order, each as often as it occurs in the list |
| Dashboard.RecentBookings | client/src/pages/admin/dashboard.tsx:52 | the first min(5, n) bookings in server order |
| Dashboard.SumPrices | client/src/pages/admin/dashboard.tsx:26 | the empty sum is 0 and a single booking sums to its price |
| Dashboard.TotalRevenue | client/src/pages/admin/dashboard.tsx:24-26 | 0 before loading; a single booking contributes its price exactly when it is returned |
| Dashboard.StatusCountsPartition | client/src/pages/admin/dashboard.tsx:171-189 | the available, rented and maintenance counts, plus the cars without a status, add up to the number of cars |
| Dashboard.ReadyIsAvailablePlusMaintenance | client/src/pages/admin/dashboard.tsx:84 | "ready" (total minus rented) counts the available and the maintenance cars and those without a status |
| Dashboard.SumPricesConcat | client/src/pages/admin/dashboard.tsx:26 | the left fold of prices is additive over concatenation |
| Dashboard.RevenueAdditive | client/src/pages/admin/dashboard.tsx:24-26 | revenue is additive over lists; a booking adds its price exactly when it is returned |
| Dashboard.RevenueNonNegative | client/src/pages/admin/dashboard.tsx:24-26 | with non-negative prices the revenue is non-negative |
| CarDetail.RelatedCars | client/src/pages/car-detail.tsx:46-48 | the FIRST related cars: at most 3, in list order, none with the route's id, each of the shown car's type and available; none while the shown car is unknown; a qualifying car left out comes after 3 shown cars, all taken from before it |
| CarDetail.Features | client/src/pages/car-detail.tsx:154 | no entry is empty, has surrounding whitespace or contains a comma; a null column gives none; what it lists is given by `CarDetail.FeaturesPadded` |
| CarDetail.FeaturesRoundTrip | client/src/pages/car-detail.tsx:154 | trimmed, comma-free, non-empty entries joined by commas are listed back exactly |
| CarDetail.FeaturesPadded | client/src/pages/car-detail.tsx:154 | comma-free entries padded with whitespace and joined by commas (the stored `"a, b, c"` form) are listed as the unpadded entries in order, empty ones dropped, and exactly as the entries when none is empty |
| CarDetail.FeaturesTrimmed | client/src/pages/car-detail.tsx:154 | comma-free pieces joined by commas are listed as their trimmed texts, empty ones dropped |
| CarDetail.FeaturesExample | client/src/pages/car-detail.tsx:154 | `Camera lùi, GPS` is listed as `Camera lùi` and `GPS` |
| CarDetail.SidePanel | client/src/pages/car-detail.tsx:262-300 | the booking form (or the book-now card) is shown exactly for an available car; the unavailable card says rented exactly for a rented car, and not for one without a status |
| CarDetail.DatePart | client/src/pages/car-detail.tsx:100-101 | the prefix of the timestamp before its first `T` |
| CarDetail.DatePartExample | client/src/pages/car-detail.tsx:100-101 | `2024-01-15T00:00:00.000Z` is cut to `2024-01-15` |
| CarDetail.BookingPayload | client/src/pages/car-detail.tsx:95-105 | the route's car id, the form's customer fields, both dates cut at `T`, the form's price, notes defaulting to empty text, and no status |
| CarDetail.PostedBookingIsPending | client/src/pages/car-detail.tsx:95-105 | a booking posted from the page is stored as `pending`, for the route's car, at the form's price |
| Home.FeaturedCars | client/src/pages/home.tsx:41 | the FIRST six available cars: at most 6, all available, in list order; none before loading; an available car left out comes after 6 featured cars, all taken from before it |
| Home.FeaturedCount | client/src/pages/home.tsx:41 | exactly min(6, number of available cars) are featured; with fewer than 6, every available car is |
| Seqs.FilterTakeFirst | client/src/pages/home.tsx:41 | `filter(p).slice(0, n)` keeps the first `n` matches: a match left out comes after `n` kept ones, all from before it |
| Seqs.FilterMultiset | client/src/pages/admin/dashboard.tsx:22-25 | `filter` keeps every match exactly as often as it occurs, and nothing else |
| Scenario.CamryRental | server/routes.ts:96-133 | a Camry posted as available: two days at 800,000 price 1,600,000; the booking is created; while rented a second booking is refused; returning makes the car available; one booking stored |
| Scenario.StatuslessCarRefused | server/routes.ts:96-116 | a car posted without a status is stored without one, and booking it is refused with 400 as unavailable |
| Scenario.CreateThenGetCar | server/storage.ts:234-243 | reading a created car back by its id gives exactly the created record |
| Scenario.DeleteCarTwice | server/storage.ts:254-256 | a second delete of the same id reports that nothing was removed |
| Text.Split | client/src/pages/car-detail.tsx:154 | `split` with one separator: no piece contains it, and the first piece is the text up to the first separator |
| Text.SplitJoin | client/src/pages/car-detail.tsx:154 | joining the pieces with the separator restores the text |
| Text.JoinSplit | client/src/pages/car-detail.tsx:154 | separator-free pieces joined with the separator split back into the same pieces |
| Text.Trim | client/src/pages/car-detail.tsx:154 | `trim` removes exactly the leading and trailing whitespace: the text is the result with only whitespace before and after it, and the result neither starts nor ends with whitespace |
| Text.TrimPadded | client/src/pages/car-detail.tsx:154 | trimming text padded only by whitespace, which itself neither starts nor ends with whitespace, gives that text back |
| Text.Lower | client/src/pages/cars.tsx:34-38 | lower-casing keeps the length and leaves no upper-case ASCII letter |

## Left out

- Sample data loaded by the store's constructor (`initializeSampleData`): the model's constructor starts empty. The scenario methods build their own state.
- The 500 replies: every `catch` that is not a validation error. The model's store calls never fail.
- Authentication routes, sessions and the auth context: their server routes are not part of this model. No handler for cars or bookings consults a session or role, so none is modelled.
- Storage.MemStorage.CreateUser: does not model bcrypt. The hash is a parameter.
- Storage.MemStorage.AuthenticateUser: does not model bcrypt. The comparison is the `matches` parameter.
- `randomUUID`: replaced by a `uuid` parameter whose resulting id is required to be unused.
- The insert schemas' own checks: `Routes.Parsed`/`Invalid` stands for the outcome of `schema.parse`.
  - The model types car type, transmission, fuel and car status as enumerations.
  - The derived server schema checks those text columns only as strings. A car posted directly with an unknown name is outside the model; an absent car status is modelled.
- Date handling: day numbers for the form's dates; `differenceInDays`, `toISOString` and `getFullYear` are library behaviour. The ISO texts and the current year are parameters.
- Text.Lower: only maps ASCII A–Z. Case mapping of other letters (Vietnamese names included) is not modelled.
- BookingForm.FormErrors: lengths count Dafny characters. The source counts UTF-16 code units, which differ for characters outside the Basic Multilingual Plane.
- AdminCars.CarFormErrors: `z.coerce.number` on text input is not modelled. Numbers arrive as integers, and the URL check is the `isUrl` parameter.
- Storage.SortNewestFirst: the model proves a newest-first permutation. Whether two bookings with equal `createdAt` keep their insertion order, as JavaScript's stable sort does, is not proved.
- `createdAt` as ISO text compared through `new Date(...)` is modelled as an integer timestamp.
- React state plumbing and rendering:
  - query loading is the `Option` input;
  - toasts, price formatting, colours and navigation are not modelled;
  - the `?book=true` query flag only sets the initial `showForm` input of `CarDetail.SidePanel`;
  - the single-field setters of the filter panel (search, type, transmission, available-only) are plain record updates.
- Concurrency and async scheduling: each store call is one atomic step.
