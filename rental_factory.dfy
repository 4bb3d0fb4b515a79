/** Creation of a rental (rental_app/patterns/rental_factory.py): the ordered checks,
    the price under the named strategy, the deposit, the inserted Rental and deposit
    Payment rows and the car marked as rented; and the standalone date-range check. */
module RentalFactory {
  import opened Entities
  import opened Pricing
  import opened Store

  /** The reasons a rental is refused, in the order the checks run. */
  datatype RentalError = CarUnavailable | StartInPast | EndNotAfterStart | LongerThanMaximum | ShorterThanMinimum

  /** The longest rental `validate_rental_dates` accepts, in days from start to end. */
  const MaxRentalDays: int := 365

  /** The deposit for a rental of `rentalDays` days: 30% of the default strategy's price
      from today to today + `rentalDays`. Both ends are counted, so the estimate covers
      one day more than the rental and its discount bracket is chosen from that count;
      the rental's own start date plays no part. */
  function CalculateDeposit(car: Car, rentalDays: int, today: Date, currentYear: int): (d: real)
    ensures d == 0.3 * car.dailyPrice * ((rentalDays + 1) as real)
                 * YearMultiplier(currentYear - car.year) * (1.0 - DurationDiscount(rentalDays + 1))
    ensures car.dailyPrice > 0.0 && rentalDays >= 0 ==> d > 0.0
  {
    var strategy := DefaultStrategy();
    var estimatedEnd := today + rentalDays;
    var rentalCost := CalculatePrice(strategy, car, currentYear, today, estimatedEnd);
    DepositPositive(car, rentalDays, currentYear);
    rentalCost * 0.3
  }

  lemma DepositPositive(car: Car, rentalDays: int, currentYear: int)
    ensures car.dailyPrice > 0.0 && rentalDays >= 0 ==>
            0.3 * car.dailyPrice * ((rentalDays + 1) as real)
            * YearMultiplier(currentYear - car.year) * (1.0 - DurationDiscount(rentalDays + 1)) > 0.0
  {
    if car.dailyPrice > 0.0 && rentalDays >= 0 {
      var a := car.dailyPrice * ((rentalDays + 1) as real);
      assert a > 0.0;
      var b := a * YearMultiplier(currentYear - car.year);
      assert b > 0.0;
      var c := b * (1.0 - DurationDiscount(rentalDays + 1));
      assert c > 0.0;
    }
  }

  /** The checks `create_rental` makes before writing anything, first failure first. */
  function CheckNewRental(car: Car, startDate: Date, endDate: Date, today: Date): (e: Option<RentalError>)
    ensures e == None <==> IsAvailable(car) && today <= startDate < endDate
    ensures e == Some(CarUnavailable) <==> !IsAvailable(car)
    ensures e == Some(StartInPast) <==> IsAvailable(car) && startDate < today
    ensures e == Some(EndNotAfterStart) <==> IsAvailable(car) && today <= startDate && endDate <= startDate
  {
    if !IsAvailable(car) then Some(CarUnavailable)
    else if startDate < today then Some(StartInPast)
    else if endDate <= startDate then Some(EndNotAfterStart)
    else None
  }

  /** The Rental row `create_rental` inserts with key `id`, or the check that refuses it. */
  function PlanRental(id: nat, client: nat, car: Car, startDate: Date, endDate: Date,
                      strategyName: string, today: Date, currentYear: int): (res: Result<Rental, RentalError>)
    ensures res.Err? <==> CheckNewRental(car, startDate, endDate, today).Some?
    ensures res.Err? ==> Some(res.error) == CheckNewRental(car, startDate, endDate, today)
    ensures res.Ok? ==>
      var r := res.value;
      && r.id == id && r.client == client && r.car == car.id
      && r.startDate == startDate && r.expectedEndDate == endDate
      && r.totalCost == CalculatePrice(CreateStrategy(strategyName), car, currentYear, startDate, endDate)
      && r.dailyCost == car.dailyPrice
      && r.deposit == CalculateDeposit(car, RentalDays(startDate, endDate), today, currentYear)
      && (r.status == Active <==> startDate == today)
      && (r.status == Pending <==> startDate > today)
      && r.actualEndDate == None && r.damageLevel == 0 && r.lateDays == 0
      && (car.dailyPrice > 0.0 ==> r.deposit > 0.0)
  {
    match CheckNewRental(car, startDate, endDate, today)
    case Some(e) => Err(e)
    case None =>
      var strategy := CreateStrategy(strategyName);
      var totalCost := CalculatePrice(strategy, car, currentYear, startDate, endDate);
      var dailyCost := car.dailyPrice;
      var days := RentalDays(startDate, endDate);
      var deposit := CalculateDeposit(car, days, today, currentYear);
      var status := if startDate <= today then Active else Pending;
      Ok(NewRental(id, client, car.id, startDate, endDate, deposit, dailyCost)
           .(totalCost := totalCost, status := status))
  }

  /** `create_rental`: on a refused check nothing changes; otherwise one Rental row and
      one deposit Payment of the same amount are appended, and the car is marked rented. */
  method CreateRental(db: Db, client: nat, carId: nat, startDate: Date, endDate: Date,
                      strategyName: string, today: Date, currentYear: int)
      returns (res: Result<nat, RentalError>)
    requires db.Valid() && carId < |db.cars|
    modifies db
    ensures db.Valid()
    ensures res.Ok? <==> CheckNewRental(old(db.cars[carId]), startDate, endDate, today) == None
    ensures res.Err? ==>
      && Some(res.error) == CheckNewRental(old(db.cars[carId]), startDate, endDate, today)
      && unchanged(db)
    ensures res.Ok? ==>
      var plan := PlanRental(|old(db.rentals)|, client, old(db.cars[carId]), startDate, endDate,
                             strategyName, today, currentYear);
      && plan.Ok? && res.value == |old(db.rentals)|
      && db.rentals == old(db.rentals) + [plan.value]
      && db.payments == old(db.payments) + [Payment(res.value, DepositPayment, plan.value.deposit)]
      && db.cars == old(db.cars)[carId := old(db.cars[carId]).(status := Rented)]
      && db.fines == old(db.fines) && db.carTypes == old(db.carTypes)
  {
    var car := db.cars[carId];
    var plan := PlanRental(|db.rentals|, client, car, startDate, endDate, strategyName, today, currentYear);
    if plan.Err? {
      return Err(plan.error);
    }
    var rental := plan.value;
    db.rentals := db.rentals + [rental];
    db.payments := db.payments + [Payment(rental.id, DepositPayment, rental.deposit)];
    db.cars := db.cars[carId := car.(status := Rented)];
    res := Ok(rental.id);
  }

  /** `validate_rental_dates`: `None` stands for `(True, "")`, `Some(e)` for the message of
      the first failing check. */
  function ValidateRentalDates(startDate: Date, endDate: Date, today: Date): (res: Option<RentalError>)
    ensures res == None <==> today <= startDate < endDate && endDate - startDate <= MaxRentalDays
    ensures res == Some(StartInPast) <==> startDate < today
    ensures res == Some(EndNotAfterStart) <==> today <= startDate && endDate <= startDate
    ensures res == Some(LongerThanMaximum) <==>
              today <= startDate < endDate && endDate - startDate > MaxRentalDays
    // the minimum-duration branch is never taken: passing the end-after-start check
    // already means a span of at least one day
    ensures res != Some(ShorterThanMinimum)
  {
    if startDate < today then Some(StartInPast)
    else if endDate <= startDate then Some(EndNotAfterStart)
    else
      var rentalDays := endDate - startDate;
      if rentalDays > MaxRentalDays then Some(LongerThanMaximum)
      else if rentalDays < 1 then Some(ShorterThanMinimum)
      else None
  }

  /** For an available car the two date checks agree except on the maximum: every range
      `validate_rental_dates` accepts is accepted by `create_rental`, and `create_rental`
      also accepts every range that is refused only for being longer than 365 days. */
  lemma CreationSkipsMaximum(car: Car, startDate: Date, endDate: Date, today: Date)
    requires IsAvailable(car)
    ensures ValidateRentalDates(startDate, endDate, today) == None
            ==> CheckNewRental(car, startDate, endDate, today) == None
    ensures CheckNewRental(car, startDate, endDate, today) == None <==>
              ValidateRentalDates(startDate, endDate, today) in {None, Some(LongerThanMaximum)}
  {
  }

  /** A concrete instance: a 366-day range starting today is refused by the date check
      and accepted by `create_rental`. */
  lemma YearAndADayAccepted(car: Car, today: Date)
    requires IsAvailable(car)
    ensures ValidateRentalDates(today, today + 366, today) == Some(LongerThanMaximum)
    ensures CheckNewRental(car, today, today + 366, today) == None
  {
  }

  /** The deposit of a ten-day rental of a 1000-a-day car made this year is priced over
      eleven days: 0.3 x 1000 x 11 x 1.2 x 0.95 = 3762. */
  lemma DepositExample(car: Car, today: Date, currentYear: int)
    requires car.dailyPrice == 1000.0 && car.year == currentYear
    ensures CalculateDeposit(car, RentalDays(today, today + 9), today, currentYear) == 3762.0
  {
  }
}
