/** The car detail page: related cars, the feature list, which panel it shows, and the booking it posts. */
module CarDetail {
  import opened Wrappers
  import opened Seqs
  import opened Text
  import opened Schema
  import BookingForm

  /** A car the "related cars" strip may show: another car of the displayed car's type that is available. */
  predicate Related(c: Car, routeId: Option<string>, current: Option<Car>) {
    Some(c.id) != routeId && current.Some? && c.carType == current.value.carType && c.status == Some(Available)
  }

  /** At most three related cars, in listed order; none while the displayed car is unknown. */
  function RelatedCars(allCars: Option<seq<Car>>, routeId: Option<string>, current: Option<Car>): (r: seq<Car>)
    ensures |r| <= 3
    ensures current.None? || allCars.None? ==> r == []
    ensures forall i :: 0 <= i < |r| ==> Related(r[i], routeId, current)
    ensures allCars.Some? ==> IsSubseq(r, allCars.value)
    ensures allCars.Some? && |r| < 3 ==>
      forall i :: 0 <= i < |allCars.value| && Related(allCars.value[i], routeId, current) ==> allCars.value[i] in r
    ensures allCars.Some? ==>
      forall i :: 0 <= i < |allCars.value| && Related(allCars.value[i], routeId, current) && allCars.value[i] !in r ==>
        |r| == 3 && IsSubseq(r, allCars.value[..i])
  {
    if allCars.None? then []
    else
      var p := (c: Car) => Related(c, routeId, current);
      FilterTakeIsSubseq(allCars.value, p, 3);
      FilterTakeFirstAll(allCars.value, p, 3);
      Take(Filter(allCars.value, p), 3)
  }

  /** `filter(Boolean)` on strings: only the empty string is dropped. */
  predicate NonEmpty(f: string) {
    f != ""
  }

  /** The trimmed, non-empty entries of the comma-separated feature text; none when the column is null. */
  function Features(features: Option<string>): (r: seq<string>)
    ensures features.None? ==> r == []
    ensures forall i :: 0 <= i < |r| ==> r[i] != ""
    ensures forall i :: 0 <= i < |r| ==> !IsWhitespace(r[i][0]) && !IsWhitespace(r[i][|r[i]| - 1])
    ensures forall i :: 0 <= i < |r| ==> ',' !in r[i]
  {
    if features.None? then []
    else
      var pieces := Split(features.value, ',');
      var trimmed := seq(|pieces|, k requires 0 <= k < |pieces| => Trim(pieces[k]));
      assert forall k :: 0 <= k < |trimmed| ==> ',' !in trimmed[k] by {
        forall k | 0 <= k < |trimmed| ensures ',' !in trimmed[k] {
          IncludedAvoids(pieces[k], trimmed[k], ',');
        }
      }
      Filter(trimmed, NonEmpty)
  }

  /** Features stored as trimmed, comma-free, non-empty entries joined by commas are listed back exactly. */
  lemma FeaturesRoundTrip(xs: seq<string>)
    requires |xs| >= 1
    requires forall k :: 0 <= k < |xs| ==> xs[k] != "" && ',' !in xs[k]
    requires forall k :: 0 <= k < |xs| ==> !IsWhitespace(xs[k][0]) && !IsWhitespace(xs[k][|xs[k]| - 1])
    ensures Features(Some(Join(xs, ','))) == xs
  {
    JoinSplit(xs, ',');
    var pieces := Split(Join(xs, ','), ',');
    var trimmed := seq(|pieces|, k requires 0 <= k < |pieces| => Trim(pieces[k]));
    forall k | 0 <= k < |xs| ensures trimmed[k] == xs[k] {
      TrimKeepsTrimmed(xs[k]);
    }
    assert trimmed == xs;
    FilterAll(xs, NonEmpty);
  }

  /**
   * Features stored as entries padded with whitespace and joined by commas,
   * as the seed cars' `"a, b, c"` texts are, are listed back as the entries
   * without their padding, blank ones dropped.
   */
  lemma FeaturesPadded(xs: seq<string>, ys: seq<string>)
    requires |xs| == |ys| >= 1
    requires forall k :: 0 <= k < |ys| ==> ',' !in ys[k]
    requires forall k :: 0 <= k < |ys| ==> ys[k] == [] || (!IsWhitespace(ys[k][0]) && !IsWhitespace(ys[k][|ys[k]| - 1]))
    requires forall k :: 0 <= k < |xs| ==> Padded(xs[k], ys[k])
    ensures Features(Some(Join(xs, ','))) == Filter(ys, NonEmpty)
    ensures (forall k :: 0 <= k < |ys| ==> ys[k] != "") ==> Features(Some(Join(xs, ','))) == ys
  {
    TrimEntries(xs, ys);
    FeaturesTrimmed(xs, ys);
    if forall k :: 0 <= k < |ys| ==> ys[k] != "" {
      FilterAll(ys, NonEmpty);
    }
  }

  /** Comma-free entries joined by commas are listed as their trimmed texts, blank ones dropped. */
  lemma FeaturesTrimmed(xs: seq<string>, ys: seq<string>)
    requires |xs| == |ys| >= 1
    requires forall k :: 0 <= k < |xs| ==> ',' !in xs[k] && Trim(xs[k]) == ys[k]
    ensures Features(Some(Join(xs, ','))) == Filter(ys, NonEmpty)
  {
    JoinSplit(xs, ',');
    var pieces := Split(Join(xs, ','), ',');
    var trimmed := seq(|pieces|, k requires 0 <= k < |pieces| => Trim(pieces[k]));
    assert trimmed == ys;
  }

  /** Each padded entry is comma-free and trims to its unpadded text. */
  lemma TrimEntries(xs: seq<string>, ys: seq<string>)
    requires |xs| == |ys|
    requires forall k :: 0 <= k < |ys| ==> ',' !in ys[k]
    requires forall k :: 0 <= k < |ys| ==> ys[k] == [] || (!IsWhitespace(ys[k][0]) && !IsWhitespace(ys[k][|ys[k]| - 1]))
    requires forall k :: 0 <= k < |xs| ==> Padded(xs[k], ys[k])
    ensures forall k :: 0 <= k < |xs| ==> ',' !in xs[k] && Trim(xs[k]) == ys[k]
  {
    forall k | 0 <= k < |xs| ensures ',' !in xs[k] && Trim(xs[k]) == ys[k] {
      var i :| PaddedAt(xs[k], ys[k], i);
      PaddedAvoids(xs[k], ys[k], i, ',');
      TrimPadded(xs[k], ys[k], i);
    }
  }

  /** A feature text in the seed cars' `"a, b"` form lists its entries without the space after each comma. */
  lemma FeaturesExample(text: string)
    requires text == "Camera lùi, GPS"
    ensures Features(Some(text)) == ["Camera lùi", "GPS"]
  {
    var a, b := "Camera lùi", " GPS";
    var xs, ys := [a, b], [a, "GPS"];
    assert Join(xs[1..], ',') == b;
    assert Join(xs, ',') == a + [','] + b;
    assert a + [','] + b == text;
    assert PaddedAt(a, a, 0) && PaddedAt(b, "GPS", 1);
    assert Padded(xs[0], ys[0]) && Padded(xs[1], ys[1]);
    assert ys[0] != "" && ys[1] != "";
    FeaturesPadded(xs, ys);
  }

  /** The side panel: the booking form or a "book now" card for an available car, otherwise an "unavailable" card. */
  datatype Panel = BookingFormPanel | BookNowCard | UnavailableCard(rented: bool)

  function SidePanel(car: Car, showForm: bool): (r: Panel)
    ensures r.BookingFormPanel? || r.BookNowCard? <==> car.status == Some(Available)
    ensures r.BookingFormPanel? <==> car.status == Some(Available) && showForm
    ensures r.UnavailableCard? ==> (r.rented <==> car.status == Some(Rented))
  {
    if car.status == Some(Available) then
      if showForm then BookingFormPanel else BookNowCard
    else UnavailableCard(car.status == Some(Rented))
  }

  /** The `yyyy-mm-dd` part of an ISO timestamp: everything before its first `T`. */
  function DatePart(iso: string): (d: string)
    ensures |d| <= |iso| && d == iso[..|d|]
    ensures 'T' !in d
    ensures |d| < |iso| ==> iso[|d|] == 'T'
  {
    Split(iso, 'T')[0]
  }

  /**
   * The body posted when the form is submitted. `startIso` and `endIso` are
   * the ISO renderings of the picked dates; the car id comes from the route.
   */
  function BookingPayload(routeId: string, s: BookingForm.Submission, startIso: string, endIso: string): (x: InsertBooking)
    ensures x.carId == routeId
    ensures x.customerName == s.values.customerName && x.customerPhone == s.values.customerPhone
    ensures x.customerId == s.values.customerId
    ensures x.startDate == DatePart(startIso) && x.endDate == DatePart(endIso)
    ensures x.totalPrice == s.totalPrice
    ensures x.status.None?
    ensures x.notes == Some(if s.values.notes.Some? then s.values.notes.value else "")
  {
    InsertBooking(routeId, s.values.customerName, s.values.customerPhone, s.values.customerId,
                  DatePart(startIso), DatePart(endIso), s.totalPrice, None,
                  Some(s.values.notes.GetOr("")))
  }

  /** The date part of a timestamp is cut at its `T`. */
  lemma DatePartExample()
    ensures DatePart("2024-01-15T00:00:00.000Z") == "2024-01-15"
  {
    var day, time := "2024-01-15", "00:00:00.000Z";
    assert "2024-01-15T00:00:00.000Z" == day + ['T'] + time;
    SplitAfter(day, time, 'T');
  }

  /**
   * A booking posted from this page is stored as `pending`, for the route's
   * car, at the price the form showed, which is the day count times the rate.
   */
  lemma PostedBookingIsPending(routeId: string, v: BookingForm.FormValues, days: nat, rate: int,
                               startIso: string, endIso: string, id: string, now: int)
    ensures
      var b := BookingOf(id, now, BookingPayload(routeId, BookingForm.Submission(v, days * rate), startIso, endIso));
      b.status == Pending && b.carId == routeId && b.totalPrice == days * rate && b.notes.Some?
  {
  }
}
