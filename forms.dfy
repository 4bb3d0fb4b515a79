/** The client-side form checks (rental_app/forms.py): whitespace stripping of text
    fields, the phone and email checks of registration and profile editing, the date
    checks of the rental form, and the effective check of the car search form. A missing
    value in `cleaned_data` is `None`. */
module Forms {
  import opened Entities
  import opened RentalFactory

  // ---------------------------------------------------------------------------
  // Stripping
  // ---------------------------------------------------------------------------

  /** The characters Python's `str.isspace` accepts, which `str.strip()` removes. */
  predicate IsSpace(c: char)
  {
    || c == ' ' || c == '\t' || c == '\n' || c == '\r' || c == '\U{B}' || c == '\U{C}'
    || ('\U{1C}' <= c <= '\U{1F}') || c == '\U{85}' || c == '\U{A0}' || c == '\U{1680}'
    || ('\U{2000}' <= c <= '\U{200A}') || c == '\U{2028}' || c == '\U{2029}' || c == '\U{202F}'
    || c == '\U{205F}' || c == '\U{3000}'
  }

  predicate AllSpace(s: string)
  {
    forall k :: 0 <= k < |s| ==> IsSpace(s[k])
  }

  /** The first index at or after `i` that does not hold whitespace (`|s|` if none). */
  function SkipSpaces(s: string, i: nat): (n: nat)
    requires i <= |s|
    ensures i <= n <= |s|
    ensures forall k :: i <= k < n ==> IsSpace(s[k])
    ensures n < |s| ==> !IsSpace(s[n])
    decreases |s| - i
  {
    if i < |s| && IsSpace(s[i]) then SkipSpaces(s, i + 1) else i
  }

  /** The end of `s[lo..j]` once its trailing whitespace is dropped. */
  function BackSpaces(s: string, lo: nat, j: nat): (n: nat)
    requires lo <= j <= |s|
    ensures lo <= n <= j
    ensures forall k :: n <= k < j ==> IsSpace(s[k])
    ensures n > lo ==> !IsSpace(s[n - 1])
  {
    if j > lo && IsSpace(s[j - 1]) then BackSpaces(s, lo, j - 1) else j
  }

  /** `str.strip()`: the slice of `s` left once the whitespace at both ends is removed;
      it is empty exactly when `s` is all whitespace. */
  function Strip(s: string): (t: string)
    ensures exists i, j :: 0 <= i <= j <= |s| && t == s[i..j]
                           && forall k :: 0 <= k < i || j <= k < |s| ==> IsSpace(s[k])
    ensures t != [] ==> !IsSpace(t[0]) && !IsSpace(t[|t| - 1])
    ensures t == [] <==> AllSpace(s)
  {
    var i := SkipSpaces(s, 0);
    var j := BackSpaces(s, i, |s|);
    assert j > i ==> s[i..j][0] == s[i] && s[i..j][j - i - 1] == s[j - 1];
    s[i..j]
  }

  /** Stripping twice strips nothing more. */
  lemma StripIdempotent(s: string)
    ensures Strip(Strip(s)) == Strip(s)
  {
    var t := Strip(s);
    if t != [] {
      assert SkipSpaces(t, 0) == 0;
      assert BackSpaces(t, 0, |t|) == |t|;
      assert t[0..|t|] == t;
    }
  }

  // ---------------------------------------------------------------------------
  // Registration and profile fields
  // ---------------------------------------------------------------------------

  datatype FormError =
    | PhoneRequired
    | EmailTaken
    | DateError(reason: RentalError)

  /** `clean_phone`: the phone with surrounding whitespace removed; a phone that is
      missing or only whitespace is refused. */
  function CleanPhone(phone: Option<string>): (r: Result<string, FormError>)
    ensures r.Err? <==> phone.None? || AllSpace(phone.value)
    ensures r.Err? ==> r.error == PhoneRequired
    ensures r.Ok? ==> r.value == Strip(phone.value) && r.value != []
  {
    var value := match phone case Some(p) => p case None => "";
    var stripped := Strip(value);
    if stripped == [] then Err(PhoneRequired) else Ok(stripped)
  }

  /** Cleaning a cleaned phone gives it back unchanged. */
  lemma CleanPhoneIdempotent(phone: Option<string>)
    requires CleanPhone(phone).Ok?
    ensures CleanPhone(Some(CleanPhone(phone).value)) == CleanPhone(phone)
  {
    StripIdempotent(phone.value);
  }

  /** `clean_email`: an email already registered by a user is refused; any other is kept as given. */
  function CleanEmail(email: string, registeredEmails: seq<string>): (r: Result<string, FormError>)
    ensures r.Ok? <==> email !in registeredEmails
    ensures r.Ok? ==> r.value == email
    ensures r.Err? ==> r.error == EmailTaken
  {
    if email in registeredEmails then Err(EmailTaken) else Ok(email)
  }

  // ---------------------------------------------------------------------------
  // Rental form
  // ---------------------------------------------------------------------------

  /** `RentalForm.clean`: with either date missing nothing is checked; otherwise the start
      may not be past, the end must follow the start and the span may not exceed 365 days,
      the first failure being reported. `None` means the form is clean. */
  function RentalFormClean(startDate: Option<Date>, endDate: Option<Date>, today: Date): (e: Option<FormError>)
    ensures startDate.None? || endDate.None? ==> e == None
    ensures startDate.Some? && endDate.Some? ==>
              (e == None <==> today <= startDate.value < endDate.value
                              && endDate.value - startDate.value <= MaxRentalDays)
    ensures startDate.Some? && endDate.Some? ==>
              match ValidateRentalDates(startDate.value, endDate.value, today)
              case None => e == None
              case Some(reason) => e == Some(DateError(reason))
  {
    if startDate.None? || endDate.None? then None
    else
      var s, t := startDate.value, endDate.value;
      if s < today then Some(DateError(StartInPast))
      else if t <= s then Some(DateError(EndNotAfterStart))
      else
        var rentalDays := t - s;
        if rentalDays > MaxRentalDays then Some(DateError(LongerThanMaximum))
        else None
  }

  /** A span of exactly 365 days is accepted and one of 366 days is refused. */
  lemma RentalFormMaximumIsInclusive(today: Date)
    ensures RentalFormClean(Some(today), Some(today + 365), today) == None
    ensures RentalFormClean(Some(today), Some(today + 366), today) == Some(DateError(LongerThanMaximum))
  {
  }

  // ---------------------------------------------------------------------------
  // Car search form
  // ---------------------------------------------------------------------------

  /** The `CarSearchForm.clean` that takes effect (the second of the two definitions): the
      dates are checked only when both are given, and the prices are not looked at. */
  function CarSearchFormClean(startDate: Option<Date>, endDate: Option<Date>,
                              priceFrom: Option<real>, priceTo: Option<real>, today: Date): (e: Option<FormError>)
    ensures startDate.None? || endDate.None? ==> e == None
    ensures startDate.Some? && endDate.Some? ==>
              (e == None <==> today <= startDate.value < endDate.value)
    ensures e.Some? ==> e.value in {DateError(StartInPast), DateError(EndNotAfterStart)}
    // the start date is checked first
    ensures startDate.Some? && endDate.Some? ==>
              (e == Some(DateError(StartInPast)) <==> startDate.value < today)
  {
    if startDate.Some? && endDate.Some? then
      if startDate.value < today then Some(DateError(StartInPast))
      else if endDate.value <= startDate.value then Some(DateError(EndNotAfterStart))
      else None
    else None
  }

  /** The price range check is never run: the outcome is the same whatever prices are
      given, so a lower bound above the upper bound is accepted. */
  lemma SearchPriceRangeNeverChecked(startDate: Option<Date>, endDate: Option<Date>,
                                     priceFrom: Option<real>, priceTo: Option<real>, today: Date)
    ensures CarSearchFormClean(startDate, endDate, priceFrom, priceTo, today)
         == CarSearchFormClean(startDate, endDate, None, None, today)
    ensures priceFrom.Some? && priceTo.Some? && startDate.None? ==>
              CarSearchFormClean(startDate, endDate, priceFrom, priceTo, today) == None
  {
  }

  /** The search form's date check is the rental form's without the maximum. */
  lemma SearchDatesAreRentalDatesWithoutMaximum(startDate: Date, endDate: Date, today: Date)
    requires endDate - startDate <= MaxRentalDays
    ensures CarSearchFormClean(Some(startDate), Some(endDate), None, None, today)
         == RentalFormClean(Some(startDate), Some(endDate), today)
  {
  }
}
