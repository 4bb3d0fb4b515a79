/** The staff-side form checks (rental_app/admin_forms.py): the CarType name, the car form
    that may create a CarType on the fly, the completion form with its bounds and its
    return-date check. The profile form's phone check is `Forms.CleanPhone`. */
module AdminForms {
  import opened Entities
  import opened Store
  import opened Fines
  import opened Forms

  /** The completion form's fields, in declaration order. */
  datatype CompletionField = ActualEndDateField | DamageLevelField | LateDaysField

  datatype AdminError =
    | NameEmpty
    | CarTypeRequired
    | EndDateInPast
    | Required(field: CompletionField)
    | BelowMinimum(field: CompletionField)
    | AboveMaximum(field: CompletionField)

  // ---------------------------------------------------------------------------
  // CarType names
  // ---------------------------------------------------------------------------

  /** `CarTypeForm.clean_name`: the name with surrounding whitespace removed; a name that
      is missing or only whitespace is refused. */
  function CleanName(name: Option<string>): (r: Result<string, AdminError>)
    ensures r.Err? <==> name.None? || AllSpace(name.value)
    ensures r.Err? ==> r.error == NameEmpty
    ensures r.Ok? ==> r.value == Strip(name.value) && r.value != []
                      && !IsSpace(r.value[0]) && !IsSpace(r.value[|r.value| - 1])
  {
    var value := match name case Some(n) => n case None => "";
    var stripped := Strip(value);
    if stripped == [] then Err(NameEmpty) else Ok(stripped)
  }

  /** A type name and a phone are cleaned by the same rule: one is accepted exactly when
      the other is, and to the same text. */
  lemma NameAndPhoneShareRule(text: Option<string>)
    ensures CleanName(text).Ok? <==> CleanPhone(text).Ok?
    ensures CleanName(text).Ok? ==> CleanName(text).value == CleanPhone(text).value
  {
  }

  /** The position of the CarType called `name`, if there is one. */
  function IndexOf(names: seq<string>, name: string): (r: Option<nat>)
    ensures r.Some? ==> r.value < |names| && names[r.value] == name
    ensures r.None? <==> name !in names
  {
    if names == [] then None
    else
      match IndexOf(names[..|names| - 1], name)
      case Some(i) => Some(i)
      case None => if names[|names| - 1] == name then Some(|names| - 1) else None
  }

  /** `CarType.objects.get_or_create(name=...)`: the table with a row of that name (added
      at the end when missing) and that row's position. */
  function GetOrCreate(names: seq<string>, name: string): (r: (seq<string>, nat))
    ensures r.1 < |r.0| && r.0[r.1] == name
    ensures name in names ==> r.0 == names
    ensures name !in names ==> r.0 == names + [name] && r.1 == |names|
  {
    match IndexOf(names, name)
    case Some(i) => (names, i)
    case None => (names + [name], |names|)
  }

  predicate DistinctNames(names: seq<string>)
  {
    forall i, j :: 0 <= i < j < |names| ==> names[i] != names[j]
  }

  /** `get_or_create` never duplicates a name, and asking again for the same name finds
      the row it returned without adding another. */
  lemma GetOrCreateKeepsNamesUnique(names: seq<string>, name: string)
    requires DistinctNames(names)
    ensures DistinctNames(GetOrCreate(names, name).0)
    ensures GetOrCreate(GetOrCreate(names, name).0, name) == GetOrCreate(names, name)
  {
    var (names', i) := GetOrCreate(names, name);
    if name !in names {
      forall a, b | 0 <= a < b < |names'|
        ensures names'[a] != names'[b]
      {
        if b == |names| {
          assert names'[a] == names[a];
        }
      }
    }
  }

  /** `CarForm.__init__`: when the CarType table is empty, a default type is created. */
  method EnsureDefaultCarType(db: Db)
    requires db.Valid()
    modifies db
    ensures db.Valid()
    ensures old(db.carTypes) == [] ==> db.carTypes == ["Седан"]
    ensures old(db.carTypes) != [] ==> db.carTypes == old(db.carTypes)
    ensures db.cars == old(db.cars) && db.rentals == old(db.rentals)
    ensures db.fines == old(db.fines) && db.payments == old(db.payments)
  {
    if db.carTypes == [] {
      var (names, _) := GetOrCreate(db.carTypes, "Седан");
      db.carTypes := names;
    }
  }

  /** `CarForm.clean`: a selected type is kept; with no type selected a non-blank new
      type name is looked up or created and becomes the selection; with neither, the form
      is refused. Only the CarType table can change, and its names stay unique. */
  method CarFormClean(db: Db, newCarType: Option<string>, carType: Option<nat>)
      returns (res: Result<nat, AdminError>)
    requires db.Valid()
    requires carType.Some? ==> carType.value < |db.carTypes|
    modifies db
    ensures db.Valid()
    ensures db.cars == old(db.cars) && db.rentals == old(db.rentals)
    ensures db.fines == old(db.fines) && db.payments == old(db.payments)
    ensures res.Ok? ==> res.value < |db.carTypes|
    ensures carType.Some? ==> res == Ok(carType.value) && db.carTypes == old(db.carTypes)
    ensures carType.None? && CleanName(newCarType).Err? ==>
              res == Err(CarTypeRequired) && db.carTypes == old(db.carTypes)
    ensures carType.None? && CleanName(newCarType).Ok? ==>
              var name := CleanName(newCarType).value;
              && (db.carTypes, res) == (GetOrCreate(old(db.carTypes), name).0, Ok(GetOrCreate(old(db.carTypes), name).1))
              && db.carTypes[res.value] == name
  {
    var newName := Strip(match newCarType case Some(n) => n case None => "");
    var selected := carType;
    if newName != [] && selected.None? {
      GetOrCreateKeepsNamesUnique(db.carTypes, newName);
      var (names, i) := GetOrCreate(db.carTypes, newName);
      db.carTypes := names;
      selected := Some(i);
    }
    if selected.None? {
      return Err(CarTypeRequired);
    }
    res := Ok(selected.value);
  }

  // ---------------------------------------------------------------------------
  // Completion form
  // ---------------------------------------------------------------------------

  /** `clean_actual_end_date`: a return date before today is refused; today, a later date
      and an absent value pass unchanged. */
  function CleanActualEndDate(actualEndDate: Option<Date>, today: Date): (r: Result<Option<Date>, AdminError>)
    ensures r.Err? <==> actualEndDate.Some? && actualEndDate.value < today
    ensures r.Err? ==> r.error == EndDateInPast
    ensures r.Ok? ==> r.value == actualEndDate
  {
    if actualEndDate.Some? && actualEndDate.value < today then Err(EndDateInPast)
    else Ok(actualEndDate)
  }

  /** The cleaned values of a valid completion form. */
  datatype CompletionInput = CompletionInput(actualEndDate: Date, damageLevel: nat, lateDays: nat)

  /** The errors of the return-date field: required, then not in the past. */
  function EndDateErrors(actualEndDate: Option<Date>, today: Date): seq<AdminError>
  {
    if actualEndDate.None? then [Required(ActualEndDateField)]
    else match CleanActualEndDate(actualEndDate, today)
      case Err(e) => [e]
      case Ok(_) => []
  }

  /** The errors of an integer field: required, then its lower and upper bounds. */
  function BoundErrors(field: CompletionField, value: Option<int>, max: Option<int>): seq<AdminError>
  {
    if value.None? then [Required(field)]
    else if value.value < 0 then [BelowMinimum(field)]
    else if max.Some? && value.value > max.value then [AboveMaximum(field)]
    else []
  }

  /** `CompleteRentalForm`: every field is required, the damage level lies in 0..3, the
      late days are at least 0 and the return date is not in the past. The form collects
      each field's error; it is valid exactly when there is none. */
  function CompleteRentalFormClean(actualEndDate: Option<Date>, damageLevel: Option<int>,
                                   lateDays: Option<int>, today: Date): (r: Result<CompletionInput, seq<AdminError>>)
    ensures r.Ok? <==> && actualEndDate.Some? && actualEndDate.value >= today
                       && damageLevel.Some? && 0 <= damageLevel.value <= 3
                       && lateDays.Some? && lateDays.value >= 0
    ensures r.Ok? ==> r.value.actualEndDate == actualEndDate.value
                      && r.value.damageLevel == damageLevel.value
                      && r.value.lateDays == lateDays.value
    ensures r.Err? ==> r.error != []
    ensures r.Err? ==> (Required(ActualEndDateField) in r.error <==> actualEndDate.None?)
                       && (EndDateInPast in r.error <==> actualEndDate.Some? && actualEndDate.value < today)
                       && (Required(DamageLevelField) in r.error <==> damageLevel.None?)
                       && (BelowMinimum(DamageLevelField) in r.error <==> damageLevel.Some? && damageLevel.value < 0)
                       && (AboveMaximum(DamageLevelField) in r.error <==> damageLevel.Some? && damageLevel.value > 3)
                       && (Required(LateDaysField) in r.error <==> lateDays.None?)
                       && (BelowMinimum(LateDaysField) in r.error <==> lateDays.Some? && lateDays.value < 0)
  {
    var errors := EndDateErrors(actualEndDate, today)
                  + BoundErrors(DamageLevelField, damageLevel, Some(3))
                  + BoundErrors(LateDaysField, lateDays, None);
    if errors == [] then Ok(CompletionInput(actualEndDate.value, damageLevel.value, lateDays.value))
    else Err(errors)
  }

  /** A valid completion form never reaches the fine table's fallback: its damage level
      is one of the table's levels, so the damage fine is the deposit times that level's
      fraction, and its late fine is 500 a day. */
  lemma ValidCompletionUsesFineTable(actualEndDate: Option<Date>, damageLevel: Option<int>,
                                     lateDays: Option<int>, today: Date, rental: Rental)
    requires CompleteRentalFormClean(actualEndDate, damageLevel, lateDays, today).Ok?
    ensures var input := CompleteRentalFormClean(actualEndDate, damageLevel, lateDays, today).value;
            && input.damageLevel in DamageMultipliers
            && DamageFine(rental, input.damageLevel) == rental.deposit * DamageMultipliers[input.damageLevel]
            && LateFine(rental, input.lateDays) == LateFinePerDay * input.lateDays as real
  {
  }
}
