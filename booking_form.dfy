/**
 * The customer booking form: its validation schema, the day and price
 * figures it keeps in component state, and what it hands on when submitted.
 */
module BookingForm {
  import opened Wrappers

  /** The form's fields. Dates are day numbers, absent until the customer picks them. */
  datatype FormValues = FormValues(
    customerName: string,
    customerPhone: string,
    customerId: string,
    startDate: Option<int>,
    endDate: Option<int>,
    notes: Option<string>)

  /** The field a validation message is attached to. */
  datatype Field = CustomerName | CustomerPhone | CustomerId | StartDate | EndDate

  /** What `onSubmit` receives: the validated fields plus the price shown at that moment. */
  datatype Submission = Submission(values: FormValues, totalPrice: int)

  predicate IsDigit(c: char) {
    '0' <= c <= '9'
  }

  /** The characters the class `[3|5|7|8|9]` admits; `|` is a literal inside a class. */
  predicate IsPrefixDigit(c: char) {
    c == '3' || c == '|' || c == '5' || c == '7' || c == '8' || c == '9'
  }

  /** A `0x` pair of the pattern's repeated group starts at index `i`. */
  predicate PairAt(s: string, i: int)
    requires 0 <= i && i + 1 < |s|
  {
    s[i] == '0' && IsPrefixDigit(s[i + 1])
  }

  predicate EightDigits(s: string) {
    |s| == 8 && forall i :: 0 <= i < 8 ==> IsDigit(s[i])
  }

  /**
   * The phone pattern `^(0[3|5|7|8|9])+([0-9]{8})$`, matched the way the
   * pattern reads: one `0x` pair, then either the eight final digits or
   * another pair.
   */
  predicate PhoneMatches(s: string)
    ensures PhoneMatches(s) ==> |s| >= 10 && |s| % 2 == 0 && s[0] == '0' && EightDigits(s[|s| - 8..])
    decreases |s|
  {
    |s| >= 10 && s[0] == '0' && IsPrefixDigit(s[1]) && (EightDigits(s[2..]) || PhoneMatches(s[2..]))
  }

  /** The language of the phone pattern stated directly: k >= 1 pairs `0x`, then exactly eight digits. */
  ghost predicate PhoneShape(s: string) {
    && |s| >= 10
    && |s| % 2 == 0
    && (forall i :: 0 <= i < |s| - 8 && i % 2 == 0 ==> PairAt(s, i))
    && (forall i :: |s| - 8 <= i < |s| ==> IsDigit(s[i]))
  }

  /** The matcher accepts exactly the strings of that shape. */
  lemma {:induction false} PhoneMatchesShape(s: string)
    ensures PhoneMatches(s) <==> PhoneShape(s)
    decreases |s|
  {
    if PhoneShape(s) {
      assert PairAt(s, 0);
    }
    if |s| >= 10 && s[0] == '0' && IsPrefixDigit(s[1]) {
      var t := s[2..];
      PhoneMatchesShape(t);
      if PhoneShape(s) {
        if |s| > 10 {
          forall i | 0 <= i < |t| - 8 && i % 2 == 0 ensures PairAt(t, i) {
            assert PairAt(s, i + 2);
            assert t[i] == s[i + 2] && t[i + 1] == s[i + 3];
          }
          forall i | |t| - 8 <= i < |t| ensures IsDigit(t[i]) {
            assert t[i] == s[i + 2];
          }
          assert PhoneShape(t);
        } else {
          assert EightDigits(t) by {
            forall i | 0 <= i < 8 ensures IsDigit(t[i]) {
              assert t[i] == s[i + 2];
            }
          }
        }
      }
      if PhoneMatches(s) {
        if EightDigits(t) {
          forall i | |s| - 8 <= i < |s| ensures IsDigit(s[i]) {
            assert s[i] == t[i - 2];
          }
        } else {
          assert PhoneShape(t);
          forall i | 0 <= i < |s| - 8 && i % 2 == 0 ensures PairAt(s, i) {
            if i >= 2 {
              assert PairAt(t, i - 2);
              assert s[i] == t[i - 2] && s[i + 1] == t[i - 1];
            }
          }
          forall i | |s| - 8 <= i < |s| ensures IsDigit(s[i]) {
            assert s[i] == t[i - 2];
          }
        }
      }
    }
  }

  /** Examples: a usual number passes; `|` passes as a second digit; `01...` and an eleven-character number fail. */
  lemma PhoneExamples()
    ensures PhoneMatches("0909123456")
    ensures PhoneMatches("0|12345678")
    ensures PhoneMatches("030912345678")
    ensures !PhoneMatches("0123456789")
    ensures !PhoneMatches("09091234567")
  {
    assert EightDigits("09123456"[..]) by { assert "0909123456"[2..] == "09123456"; }
    assert "0|12345678"[2..] == "12345678";
    assert "030912345678"[2..] == "0912345678";
    assert "0912345678"[2..] == "12345678";
    PhoneMatchesShape("09091234567");
  }

  /** The set of fields the schema reports errors on; the form submits only when it is empty. */
  function FormErrors(v: FormValues): (errs: set<Field>)
    ensures CustomerName in errs <==> |v.customerName| < 2
    ensures CustomerPhone in errs <==> !PhoneMatches(v.customerPhone)
    ensures CustomerId in errs <==> !(9 <= |v.customerId| <= 12)
    ensures StartDate in errs <==> v.startDate.None?
    ensures EndDate in errs <==>
      v.endDate.None? || (v.startDate.Some? && v.endDate.value <= v.startDate.value)
  {
    (if |v.customerName| < 2 then {CustomerName} else {}) +
    (if !PhoneMatches(v.customerPhone) then {CustomerPhone} else {}) +
    (if |v.customerId| < 9 || |v.customerId| > 12 then {CustomerId} else {}) +
    (if v.startDate.None? then {StartDate} else {}) +
    (if v.endDate.None? then {EndDate} else {}) +
    // the refinement: the return date must come after the pick-up date; the message goes on endDate
    (if v.startDate.Some? && v.endDate.Some? && !(v.endDate.value > v.startDate.value) then {EndDate} else {})
  }

  /** `differenceInDays(end, start)` clamped at 0. */
  function TotalDays(startDate: int, endDate: int): (d: nat)
    ensures d > 0 <==> endDate > startDate
    ensures d > 0 ==> d == endDate - startDate
  {
    var days := endDate - startDate;
    if days > 0 then days else 0
  }

  /** `days > 0 ? days * pricePerDay : 0`. */
  function TotalPrice(startDate: int, endDate: int, pricePerDay: int): (r: int)
    ensures endDate <= startDate ==> r == 0
    ensures endDate > startDate ==> r == (endDate - startDate) * pricePerDay
    ensures pricePerDay >= 0 ==> r >= 0
  {
    var days := endDate - startDate;
    if days > 0 then days * pricePerDay else 0
  }

  /** The price shown is always the (clamped) day count times the daily rate. */
  lemma PriceIsDaysTimesRate(startDate: int, endDate: int, pricePerDay: int)
    ensures TotalPrice(startDate, endDate, pricePerDay) == TotalDays(startDate, endDate) * pricePerDay
    ensures pricePerDay >= 0 ==> TotalPrice(startDate, endDate, pricePerDay) >= 0
  {
  }

  /** A form the schema accepts spans at least one whole day. */
  lemma AcceptedFormSpansADay(v: FormValues)
    requires FormErrors(v) == {}
    ensures v.startDate.Some? && v.endDate.Some?
    ensures TotalDays(v.startDate.value, v.endDate.value) >= 1
  {
    assert StartDate !in FormErrors(v) && EndDate !in FormErrors(v);
  }

  /** The day and price figures the form keeps in component state, for one car's daily rate. */
  class PriceSummary {
    var totalDays: int
    var totalPrice: int
    const pricePerDay: int

    /** The two figures always agree with each other. */
    ghost predicate Consistent()
      reads this
    {
      totalDays >= 0 && totalPrice == totalDays * pricePerDay
    }

    constructor (pricePerDay: int)
      ensures Consistent()
      ensures this.pricePerDay == pricePerDay && totalDays == 0 && totalPrice == 0
    {
      this.pricePerDay := pricePerDay;
      totalDays, totalPrice := 0, 0;
    }

    /** The effect run when either date changes: it recomputes only once both dates are set. */
    method OnDatesChanged(startDate: Option<int>, endDate: Option<int>)
      requires Consistent()
      modifies this
      ensures Consistent()
      ensures startDate.Some? && endDate.Some? ==>
        totalDays == TotalDays(startDate.value, endDate.value)
        && totalPrice == TotalPrice(startDate.value, endDate.value, pricePerDay)
      ensures startDate.None? || endDate.None? ==>
        totalDays == old(totalDays) && totalPrice == old(totalPrice)
    {
      if startDate.Some? && endDate.Some? {
        var days := endDate.value - startDate.value;
        totalDays := if days > 0 then days else 0;
        totalPrice := if days > 0 then days * pricePerDay else 0;
      }
    }

    /** The submit button is disabled while a request is pending and whenever the day count is 0. */
    function SubmitDisabled(isSubmitting: bool): (r: bool)
      reads this
      requires Consistent()
      ensures totalDays == 0 ==> r
      ensures isSubmitting ==> r
      ensures !isSubmitting && totalDays >= 1 ==> !r
      ensures !r ==> totalDays >= 1 && totalPrice == totalDays * pricePerDay
    {
      isSubmitting || totalDays == 0
    }

    /** `handleSubmit`: forwards the validated values unchanged, plus the current total price. */
    method HandleSubmit(v: FormValues) returns (s: Submission)
      requires Consistent()
      ensures s.values == v
      ensures s.totalPrice == totalPrice && s.totalPrice == totalDays * pricePerDay
    {
      s := Submission(v, totalPrice);
    }
  }
}
