/** The rental lifecycle (rental_app/services/rental_service.py): creation through the
    factory, the rentals that count as running, the status sweep, completion with its fine
    records and refund, and the rental statistics. */
module RentalService {
  import opened Entities
  import opened Pricing
  import opened Fines
  import opened Store
  import RentalFactory
  import CarService

  /** `create_rental`: the factory under the default strategy name. */
  method CreateRental(db: Db, client: nat, carId: nat, startDate: Date, endDate: Date,
                      today: Date, currentYear: int)
      returns (res: Result<nat, RentalFactory.RentalError>)
    requires db.Valid() && carId < |db.cars|
    modifies db
    ensures db.Valid()
    ensures res.Ok? <==> RentalFactory.CheckNewRental(old(db.cars[carId]), startDate, endDate, today) == None
    ensures res.Err? ==>
      && Some(res.error) == RentalFactory.CheckNewRental(old(db.cars[carId]), startDate, endDate, today)
      && unchanged(db)
    ensures res.Ok? ==>
      var plan := RentalFactory.PlanRental(|old(db.rentals)|, client, old(db.cars[carId]), startDate, endDate,
                                           "combined", today, currentYear);
      && plan.Ok? && res.value == |old(db.rentals)|
      && db.rentals == old(db.rentals) + [plan.value]
      && db.payments == old(db.payments) + [Payment(res.value, DepositPayment, plan.value.deposit)]
      && db.cars == old(db.cars)[carId := old(db.cars[carId]).(status := Rented)]
      && db.fines == old(db.fines) && db.carTypes == old(db.carTypes)
      && db.rentals[res.value].totalCost == CombinedPrice(old(db.cars[carId]), currentYear, startDate, endDate)
  {
    res := RentalFactory.CreateRental(db, client, carId, startDate, endDate, "combined", today, currentYear);
  }

  // ---------------------------------------------------------------------------
  // Running rentals
  // ---------------------------------------------------------------------------

  function ActiveRentalsQuery(today: Date): RentalQuery
  {
    RentalQuery({Active, Pending}, None, Some(today), None, None, None, None)
  }

  /** `get_active_rentals`: the active and pending rentals whose start date has come. */
  function GetActiveRentals(rentals: seq<Rental>, today: Date): (active: seq<Rental>)
    ensures forall r :: r in active <==>
              r in rentals && (r.status == Active || r.status == Pending) && r.startDate <= today
  {
    Select(rentals, ActiveRentalsQuery(today))
  }

  // ---------------------------------------------------------------------------
  // The status sweep
  // ---------------------------------------------------------------------------

  /** The rows of the first pass: pending rentals whose start date has come. */
  function PendingStartedQuery(today: Date): RentalQuery
  {
    RentalQuery({Pending}, None, Some(today), None, None, None, None)
  }

  /** The rows of the second pass: active rentals whose expected end date has passed. */
  function ActiveExpiredQuery(today: Date): RentalQuery
  {
    RentalQuery({Active}, None, None, None, Some(today), None, None)
  }

  function Activate(r: Rental, today: Date): Rental
  {
    if Matches(PendingStartedQuery(today), r) then r.(status := Active) else r
  }

  function MarkOverdue(r: Rental, today: Date): Rental
  {
    if Matches(ActiveExpiredQuery(today), r) then r.(status := Overdue) else r
  }

  /** `.update(status='active')` on the rows of the first pass. */
  function ActivatePass(rs: seq<Rental>, today: Date): (out: seq<Rental>)
    ensures |out| == |rs|
    ensures forall i :: 0 <= i < |rs| ==> out[i] == Activate(rs[i], today)
  {
    if rs == [] then [] else [Activate(rs[0], today)] + ActivatePass(rs[1..], today)
  }

  /** `.update(status='overdue')` on the rows of the second pass. */
  function OverduePass(rs: seq<Rental>, today: Date): (out: seq<Rental>)
    ensures |out| == |rs|
    ensures forall i :: 0 <= i < |rs| ==> out[i] == MarkOverdue(rs[i], today)
  {
    if rs == [] then [] else [MarkOverdue(rs[0], today)] + OverduePass(rs[1..], today)
  }

  /** The status one row ends up with, decided at once: a pending rental that has started
      becomes active, or overdue if its expected end has also passed; an active rental
      past its expected end becomes overdue; every other row keeps its status. */
  function NextStatus(r: Rental, today: Date): RentalStatus
  {
    if r.status == Pending && r.startDate <= today then
      (if r.expectedEndDate < today then Overdue else Active)
    else if r.status == Active && r.expectedEndDate < today then Overdue
    else r.status
  }

  /** The table after both passes; row by row it is the one-step decision above. */
  function Sweep(rs: seq<Rental>, today: Date): (out: seq<Rental>)
    ensures |out| == |rs|
    ensures forall i :: 0 <= i < |rs| ==> out[i] == rs[i].(status := NextStatus(rs[i], today))
  {
    OverduePass(ActivatePass(rs, today), today)
  }

  /** The number the sweep returns: rows of the first pass plus rows of the second pass,
      the second counted on the table the first pass left. */
  function SweepCount(rs: seq<Rental>, today: Date): nat
  {
    Count(rs, PendingStartedQuery(today)) + Count(ActivatePass(rs, today), ActiveExpiredQuery(today))
  }

  /** `update_overdue_rentals`: activate, then mark overdue, and return the sum of the two
      counts; no other table and no other field changes. */
  method UpdateOverdueRentals(db: Db, today: Date) returns (count: nat)
    requires db.Valid()
    modifies db
    ensures db.Valid()
    ensures db.rentals == Sweep(old(db.rentals), today)
    ensures count == SweepCount(old(db.rentals), today)
    ensures db.cars == old(db.cars) && db.fines == old(db.fines)
    ensures db.payments == old(db.payments) && db.carTypes == old(db.carTypes)
  {
    var pendingToActive := Select(db.rentals, PendingStartedQuery(today));
    var pendingCount := |pendingToActive|;
    db.rentals := ActivatePass(db.rentals, today);
    var overdueRentals := Select(db.rentals, ActiveExpiredQuery(today));
    var overdueCount := |overdueRentals|;
    db.rentals := OverduePass(db.rentals, today);
    count := pendingCount + overdueCount;
    assert db.rentals == Sweep(old(db.rentals), today);
  }

  /** After the sweep no rental is pending with its start date come, none is active past
      its expected end date, and so none is overdue by `is_overdue`. */
  lemma SweepLeavesNothingDue(rs: seq<Rental>, today: Date)
    ensures forall r :: r in Sweep(rs, today) ==>
              && !(r.status == Pending && r.startDate <= today)
              && !(r.status == Active && r.expectedEndDate < today)
              && !IsOverdue(r, today)
  {
    var out := Sweep(rs, today);
    forall r | r in out
      ensures !(r.status == Pending && r.startDate <= today)
      ensures !(r.status == Active && r.expectedEndDate < today)
    {
      var i :| 0 <= i < |out| && out[i] == r;
      assert r == rs[i].(status := NextStatus(rs[i], today));
    }
  }

  /** The sweep changes only the status, only of pending and active rentals, and only
      forward: pending may become active or overdue, active may become overdue. */
  lemma SweepChangesOnlyPendingAndActiveStatus(rs: seq<Rental>, today: Date)
    ensures forall i :: 0 <= i < |rs| ==>
              var r, s := rs[i], Sweep(rs, today)[i];
              && s == r.(status := s.status)
              && (r.status !in {Pending, Active} ==> s == r)
              && (r.status == Pending ==> s.status in {Pending, Active, Overdue})
              && (r.status == Active ==> s.status in {Active, Overdue})
  {
  }

  /** The sweep is idempotent: a second sweep on the same day changes nothing and returns 0. */
  lemma SweepIdempotent(rs: seq<Rental>, today: Date)
    ensures Sweep(Sweep(rs, today), today) == Sweep(rs, today)
    ensures SweepCount(Sweep(rs, today), today) == 0
  {
    var once := Sweep(rs, today);
    SweepLeavesNothingDue(rs, today);
    SelectNoMatch(once, PendingStartedQuery(today));
    var activated := ActivatePass(once, today);
    assert activated == once;
    SelectNoMatch(once, ActiveExpiredQuery(today));
    assert Sweep(once, today) == once;
  }

  /** The rows of both passes: pending rentals whose start date has come and whose
      expected end date has passed. */
  function PendingStartedAndExpiredQuery(today: Date): RentalQuery
  {
    RentalQuery({Pending}, None, Some(today), None, Some(today), None, None)
  }

  /** The returned count is the number of rows the first pass activates, plus the active
      rentals past their end, plus once more each pending rental that goes straight to
      overdue: such a rental is counted twice. */
  lemma {:induction false} SweepCountDoubleCounts(rs: seq<Rental>, today: Date)
    ensures SweepCount(rs, today) == Count(rs, PendingStartedQuery(today))
                                   + Count(rs, ActiveExpiredQuery(today))
                                   + Count(rs, PendingStartedAndExpiredQuery(today))
  {
    if rs != [] {
      var r, rest := rs[0], rs[1..];
      SweepCountDoubleCounts(rest, today);
      var activated := ActivatePass(rs, today);
      assert activated[0] == Activate(r, today);
      assert activated[1..] == ActivatePass(rest, today);
    }
  }

  /** A single pending rental that has started and is already past its expected end goes
      straight to overdue and is counted twice. */
  lemma PendingPastBothDatesCountedTwice(r: Rental, today: Date)
    requires r.status == Pending && r.startDate <= today && r.expectedEndDate < today
    ensures Sweep([r], today) == [r.(status := Overdue)]
    ensures SweepCount([r], today) == 2
  {
    assert [r][1..] == [];
    var a := Activate(r, today);
    assert ActivatePass([r], today) == [a];
    assert [a][1..] == [];
  }

  // ---------------------------------------------------------------------------
  // Completion
  // ---------------------------------------------------------------------------

  /** The rental row as completion saves it: returned on `actualEndDate` with the damage
      level and late days recorded, completed, and its total cost recomputed with the
      default strategy at the car's daily price of today, plus the fines. */
  function CompletedRecord(r: Rental, car: Car, actualEndDate: Date, damageLevel: int, lateDays: int,
                           currentYear: int): (c: Rental)
    ensures c.status == Completed && c.actualEndDate == Some(actualEndDate)
    ensures c.damageLevel == damageLevel && c.lateDays == lateDays
    ensures c.id == r.id && c.client == r.client && c.car == r.car
    ensures c.startDate == r.startDate && c.expectedEndDate == r.expectedEndDate
    ensures c.deposit == r.deposit && c.dailyCost == r.dailyCost
    ensures c.totalCost == CombinedPrice(car, currentYear, r.startDate, actualEndDate)
                           + TotalFines(r, damageLevel, lateDays)
    // the days priced are the days the completed record reports as rented
    ensures forall today :: DaysRented(c, today) == RentalDays(r.startDate, actualEndDate)
  {
    var totalFines := TotalFines(r, damageLevel, lateDays);
    var updated := r.(actualEndDate := Some(actualEndDate), damageLevel := damageLevel,
                      lateDays := lateDays, status := Completed);
    var price := CalculatePrice(DefaultStrategy(), car, currentYear, updated.startDate, actualEndDate);
    updated.(totalCost := price + totalFines)
  }

  /** The recomputed cost follows the car's current daily price, not the price copied
      into the rental at creation: when the two differ, so do the costs. */
  lemma {:induction false} CompletionRepricesAtCurrentPrice(r: Rental, car: Car, actualEndDate: Date,
                                                           damageLevel: int, lateDays: int, currentYear: int)
    requires r.startDate <= actualEndDate && car.dailyPrice != r.dailyCost
    ensures CompletedRecord(r, car, actualEndDate, damageLevel, lateDays, currentYear).totalCost
         != CombinedPrice(car.(dailyPrice := r.dailyCost), currentYear, r.startDate, actualEndDate)
            + TotalFines(r, damageLevel, lateDays)
  {
    var k := (RentalDays(r.startDate, actualEndDate) as real)
             * YearMultiplier(currentYear - car.year)
             * (1.0 - DurationDiscount(RentalDays(r.startDate, actualEndDate)));
    assert k > 0.0 by {
      var days := RentalDays(r.startDate, actualEndDate) as real;
      assert days > 0.0;
      assert days * YearMultiplier(currentYear - car.year) > 0.0;
    }
    assert CombinedPrice(car, currentYear, r.startDate, actualEndDate) == car.dailyPrice * k;
    assert CombinedPrice(car.(dailyPrice := r.dailyCost), currentYear, r.startDate, actualEndDate)
           == r.dailyCost * k;
    assert car.dailyPrice * k - r.dailyCost * k == (car.dailyPrice - r.dailyCost) * k;
  }

  function DamageFineRecords(r: Rental, damageLevel: int): seq<Fine>
  {
    if damageLevel > 0 then [Fine(r.id, DamageReason(damageLevel), DamageFine(r, damageLevel))] else []
  }

  function LateFineRecords(r: Rental, lateDays: int): seq<Fine>
  {
    if lateDays > 0 then [Fine(r.id, LateReason(lateDays), LateFine(r, lateDays))] else []
  }

  /** The fines `_create_fine_records` writes: a damage fine exactly when the level is
      positive and a late fine exactly when some day is late, all for this rental, adding
      up to the total fines. */
  function FineRecords(r: Rental, damageLevel: int, lateDays: int): (fs: seq<Fine>)
    ensures forall f :: f in fs ==> f.rental == r.id
    ensures (exists f :: f in fs && f.reason.DamageReason?) <==> damageLevel > 0
    ensures (exists f :: f in fs && f.reason.LateReason?) <==> lateDays > 0
    ensures SumFineAmounts(fs) == TotalFines(r, damageLevel, lateDays)
    ensures r.deposit >= 0.0 ==> forall f :: f in fs ==> f.amount >= 0.0
    ensures r.deposit > 0.0 && damageLevel <= 3 ==> forall f :: f in fs ==> f.amount > 0.0
  {
    var fs := DamageFineRecords(r, damageLevel) + LateFineRecords(r, lateDays);
    SumFineAmountsAppend(DamageFineRecords(r, damageLevel), LateFineRecords(r, lateDays));
    assert forall f :: f in fs ==> f in DamageFineRecords(r, damageLevel) || f in LateFineRecords(r, lateDays);
    fs
  }

  /** `_create_fine_records`. */
  method CreateFineRecords(db: Db, rental: Rental, damageLevel: int, lateDays: int)
    requires db.Valid()
    requires rental.id < |db.rentals| && db.rentals[rental.id].status == Completed
    requires rental.deposit > 0.0
    modifies db
    ensures db.Valid()
    ensures db.fines == old(db.fines) + FineRecords(rental, damageLevel, lateDays)
    ensures db.cars == old(db.cars) && db.rentals == old(db.rentals)
    ensures db.payments == old(db.payments) && db.carTypes == old(db.carTypes)
  {
    if damageLevel > 0 {
      var damageFine := DamageFine(rental, damageLevel);
      db.fines := db.fines + [Fine(rental.id, DamageReason(damageLevel), damageFine)];
    }
    if lateDays > 0 {
      var lateFine := LateFine(rental, lateDays);
      db.fines := db.fines + [Fine(rental.id, LateReason(lateDays), lateFine)];
    }
  }

  /** `complete_rental`: the fines and the refund are computed from the rental as it was,
      the row is saved as `CompletedRecord` says, the fine records follow, a refund payment
      is written only when something is refunded, and the car becomes available. The
      rental's current status is not checked. */
  method CompleteRental(db: Db, rentalId: nat, actualEndDate: Date, damageLevel: int, lateDays: int,
                        currentYear: int)
      returns (rental: Rental, totalFines: real, refund: real)
    requires db.Valid() && rentalId < |db.rentals|
    modifies db
    ensures db.Valid()
    ensures var r := old(db.rentals[rentalId]);
            var car := old(db.cars[r.car]);
            && totalFines == TotalFines(r, damageLevel, lateDays)
            && refund == Refund(r, totalFines)
            && rental == CompletedRecord(r, car, actualEndDate, damageLevel, lateDays, currentYear)
            && db.rentals == old(db.rentals)[rentalId := rental]
            && db.fines == old(db.fines) + FineRecords(rental, damageLevel, lateDays)
            && db.payments == old(db.payments)
                              + (if refund > 0.0 then [Payment(rentalId, RefundPayment, refund)] else [])
            && db.cars == old(db.cars)[r.car := car.(status := Available)]
            && db.carTypes == old(db.carTypes)
  {
    rental := db.rentals[rentalId];
    totalFines := TotalFines(rental, damageLevel, lateDays);
    refund := Refund(rental, totalFines);

    rental := rental.(actualEndDate := Some(actualEndDate), damageLevel := damageLevel,
                      lateDays := lateDays, status := Completed);
    var strategy := DefaultStrategy();
    var car := db.cars[rental.car];
    rental := rental.(totalCost := CalculatePrice(strategy, car, currentYear, rental.startDate, actualEndDate));
    rental := rental.(totalCost := rental.totalCost + totalFines);
    db.rentals := db.rentals[rentalId := rental];

    CreateFineRecords(db, rental, damageLevel, lateDays);

    if refund > 0.0 {
      db.payments := db.payments + [Payment(rentalId, RefundPayment, refund)];
    }

    db.cars := db.cars[car.id := car.(status := Available)];
  }

  /** Completing a rental that was not yet completed adds its new total cost to its car's
      revenue and one to the car's count of completed rentals. */
  lemma CompletionAddsToCarRevenue(rentals: seq<Rental>, i: nat, c: Rental)
    requires i < |rentals| && rentals[i].status != Completed
    requires c.status == Completed && c.car == rentals[i].car
    ensures TotalRevenue(rentals[i := c], c.car) == TotalRevenue(rentals, c.car) + c.totalCost
    ensures TotalRentalsCount(rentals[i := c], c.car) == TotalRentalsCount(rentals, c.car) + 1
  {
    CompletionAddsToCompleted(rentals, i, c);
  }

  /** The completed rentals of the car, after one of its rentals is completed: the same
      rows plus that one. */
  lemma {:induction false} CompletionAddsToCompleted(rentals: seq<Rental>, i: nat, c: Rental)
    requires i < |rentals| && rentals[i].status != Completed
    requires c.status == Completed && c.car == rentals[i].car
    ensures SumTotalCost(Select(rentals[i := c], CompletedOfCar(c.car)))
            == SumTotalCost(Select(rentals, CompletedOfCar(c.car))) + c.totalCost
    ensures |Select(rentals[i := c], CompletedOfCar(c.car))| == |Select(rentals, CompletedOfCar(c.car))| + 1
  {
    var q := CompletedOfCar(c.car);
    var head, rest := rentals[0], rentals[1..];
    assert rentals == [head] + rest;
    var head', rest' := if i == 0 then c else head, if i == 0 then rest else rest[i - 1 := c];
    assert rentals[i := c] == [head'] + rest';
    SelectAppend([head], rest, q);
    SelectAppend([head'], rest', q);
    SumTotalCostAppend(Select([head], q), Select(rest, q));
    SumTotalCostAppend(Select([head'], q), Select(rest', q));
    if i == 0 {
      assert Select([head], q) == [] && Select([c], q) == [c];
    } else {
      CompletionAddsToCompleted(rest, i - 1, c);
    }
  }

  /** The fine records a completion writes, and what they add up to, depend on the
      rental only through its id and deposit. */
  lemma CompletionFineRecords(r: Rental, car: Car, actualEndDate: Date, damageLevel: int, lateDays: int,
                              currentYear: int)
    ensures var c := CompletedRecord(r, car, actualEndDate, damageLevel, lateDays, currentYear);
            && CarService.FinesOf(FineRecords(c, damageLevel, lateDays), r.id)
               == FineRecords(c, damageLevel, lateDays)
            && SumFineAmounts(FineRecords(c, damageLevel, lateDays))
               == TotalFines(r, damageLevel, lateDays)
  {
    var c := CompletedRecord(r, car, actualEndDate, damageLevel, lateDays, currentYear);
    CarService.FinesOfOwn(FineRecords(c, damageLevel, lateDays), r.id);
    assert DamageFine(c, damageLevel) == DamageFine(r, damageLevel);
  }

  /** A first completion of a rental, on a return date no earlier than the day before its
      start, leaves the fines recorded against it inside its new total cost. The tables
      are as `Store.Db.Valid` keeps them: fines exist only for completed rentals, so the
      rental had none, and deposits and daily prices are positive. */
  lemma CompletionKeepsFinesInsideCost(rentals: seq<Rental>, fines: seq<Fine>, car: Car, rentalId: nat,
                                       actualEndDate: Date, damageLevel: int, lateDays: int, currentYear: int)
    requires rentalId < |rentals| && rentals[rentalId].id == rentalId
    requires rentals[rentalId].status != Completed
    requires forall f :: f in fines ==> f.rental < |rentals| && rentals[f.rental].status == Completed
    requires rentals[rentalId].deposit > 0.0 && car.dailyPrice > 0.0
    requires actualEndDate >= rentals[rentalId].startDate - 1
    ensures var c := CompletedRecord(rentals[rentalId], car, actualEndDate, damageLevel, lateDays, currentYear);
            SumFineAmounts(CarService.FinesOf(fines + FineRecords(c, damageLevel, lateDays), rentalId))
            <= c.totalCost
  {
    var r := rentals[rentalId];
    var c := CompletedRecord(r, car, actualEndDate, damageLevel, lateDays, currentYear);
    var recs := FineRecords(c, damageLevel, lateDays);
    CarService.FinesOfAppend(fines, recs, rentalId);
    assert forall f :: f in fines ==> f.rental != rentalId;
    CarService.FinesOfNone(fines, rentalId);
    CompletionFineRecords(r, car, actualEndDate, damageLevel, lateDays, currentYear);
    assert CarService.FinesOf(fines + recs, rentalId) == recs;
    CombinedPriceSign(car, currentYear, r.startDate, actualEndDate);
  }

  /** Nothing stops a completion dated more than a day before the rental starts (a pending
      rental completed early): the days priced are negative, so is the price, and the new
      total cost falls below the fines recorded with it. */
  lemma EarlyCompletionPricedBelowFines(r: Rental, car: Car, actualEndDate: Date, damageLevel: int,
                                        lateDays: int, currentYear: int)
    requires actualEndDate < r.startDate - 1 && car.dailyPrice > 0.0
    ensures var c := CompletedRecord(r, car, actualEndDate, damageLevel, lateDays, currentYear);
            c.totalCost < SumFineAmounts(FineRecords(c, damageLevel, lateDays))
  {
    CompletionFineRecords(r, car, actualEndDate, damageLevel, lateDays, currentYear);
    CombinedPriceSign(car, currentYear, r.startDate, actualEndDate);
  }

  /** Nothing stops a second completion of the same rental either: its fines are recorded
      again, so the fines against the rental count the completion's fines twice while its
      total cost includes them once. */
  lemma SecondCompletionCountsFinesTwice(fines: seq<Fine>, r: Rental, car: Car, actualEndDate: Date,
                                         damageLevel: int, lateDays: int, currentYear: int)
    ensures var c1 := CompletedRecord(r, car, actualEndDate, damageLevel, lateDays, currentYear);
            var fines1 := fines + FineRecords(c1, damageLevel, lateDays);
            var c2 := CompletedRecord(c1, car, actualEndDate, damageLevel, lateDays, currentYear);
            var fines2 := fines1 + FineRecords(c2, damageLevel, lateDays);
            && c2.totalCost == c1.totalCost
            && SumFineAmounts(CarService.FinesOf(fines2, r.id))
               == SumFineAmounts(CarService.FinesOf(fines, r.id)) + 2.0 * TotalFines(r, damageLevel, lateDays)
  {
    var c1 := CompletedRecord(r, car, actualEndDate, damageLevel, lateDays, currentYear);
    var c2 := CompletedRecord(c1, car, actualEndDate, damageLevel, lateDays, currentYear);
    var t := TotalFines(r, damageLevel, lateDays);
    CompletionFineRecords(r, car, actualEndDate, damageLevel, lateDays, currentYear);
    CompletionFineRecords(c1, car, actualEndDate, damageLevel, lateDays, currentYear);
    assert TotalFines(c1, damageLevel, lateDays) == t by {
      assert DamageFine(c1, damageLevel) == DamageFine(r, damageLevel);
    }
    AppendedFinesAddUp(fines, FineRecords(c1, damageLevel, lateDays), FineRecords(c2, damageLevel, lateDays), r.id);
  }

  /** Appending two batches of a rental's fines adds both batches' amounts to its fines. */
  lemma AppendedFinesAddUp(fines: seq<Fine>, recs1: seq<Fine>, recs2: seq<Fine>, rentalId: nat)
    requires CarService.FinesOf(recs1, rentalId) == recs1 && CarService.FinesOf(recs2, rentalId) == recs2
    ensures SumFineAmounts(CarService.FinesOf(fines + recs1 + recs2, rentalId))
            == SumFineAmounts(CarService.FinesOf(fines, rentalId)) + SumFineAmounts(recs1) + SumFineAmounts(recs2)
  {
    var before := CarService.FinesOf(fines, rentalId);
    CarService.FinesOfAppend(fines, recs1, rentalId);
    CarService.FinesOfAppend(fines + recs1, recs2, rentalId);
    SumFineAmountsAppend(before + recs1, recs2);
    SumFineAmountsAppend(before, recs1);
  }

  /** Completion can write rows below the declared 0.01 minimum of `Fine.amount` and
      `Payment.amount`, since model validators are not run on `objects.create`: a damage
      level above 3 records a fine of 0, and a deposit of 0.01 with the highest damage level
      is refunded 0.005. `Store.Db.Valid` therefore asks only `>= 0` of fines and `> 0` of
      payments. */
  lemma CompletionWritesBelowDeclaredMinimum(r: Rental)
    requires r.deposit > 0.0
    ensures exists f :: f in FineRecords(r, 4, 0) && f.amount == 0.0 && !FineFieldsValid(f)
    ensures r.deposit == MinMoney ==>
              var refund := Refund(r, TotalFines(r, 3, 0));
              refund > 0.0 && !PaymentFieldsValid(Payment(r.id, RefundPayment, refund))
  {
    assert FineRecords(r, 4, 0)[0] in FineRecords(r, 4, 0);
  }

  // ---------------------------------------------------------------------------
  // Statistics
  // ---------------------------------------------------------------------------

  datatype RentalStatistics = RentalStatistics(
    totalRentals: nat,
    activeRentals: nat,
    completedRentals: nat,
    overdueRentals: nat,
    totalRevenue: real,
    totalFines: real)

  /** `get_rental_statistics`. No rental is counted in two of the running, completed and
      overdue figures, so together they never outnumber the table; revenue is 0 when nothing is completed. */
  function GetRentalStatistics(rentals: seq<Rental>, fines: seq<Fine>, today: Date): (s: RentalStatistics)
    ensures s.totalRentals == |rentals|
    ensures s.activeRentals == |GetActiveRentals(rentals, today)|
    ensures s.completedRentals == Count(rentals, StatusQuery({Completed}))
    ensures s.overdueRentals == Count(rentals, StatusQuery({Overdue}))
    ensures s.totalRevenue == SumTotalCost(Select(rentals, StatusQuery({Completed})))
    ensures s.totalFines == SumFineAmounts(fines)
    ensures s.activeRentals + s.completedRentals + s.overdueRentals <= s.totalRentals
    ensures s.completedRentals == 0 ==> s.totalRevenue == 0.0
    ensures (forall r :: r in rentals ==> r.totalCost >= 0.0) ==> s.totalRevenue >= 0.0
    ensures (forall f :: f in fines ==> f.amount >= 0.0) ==> s.totalFines >= 0.0
  {
    var completed := Select(rentals, StatusQuery({Completed}));
    DisjointStatusCounts(rentals, today);
    SumTotalCostNonNegative(completed);
    SumFineAmountsNonNegative(fines);
    RentalStatistics(
      |rentals|,
      Count(rentals, ActiveRentalsQuery(today)),
      |completed|,
      Count(rentals, StatusQuery({Overdue})),
      SumTotalCost(completed),
      SumFineAmounts(fines))
  }

  /** No rental is both running and completed, running and overdue, or completed and
      overdue, so the three counts together never exceed the table. */
  lemma {:induction false} DisjointStatusCounts(rs: seq<Rental>, today: Date)
    ensures forall r :: Matches(ActiveRentalsQuery(today), r) ==>
              !Matches(StatusQuery({Completed}), r) && !Matches(StatusQuery({Overdue}), r)
    ensures forall r :: !(Matches(StatusQuery({Completed}), r) && Matches(StatusQuery({Overdue}), r))
    ensures Count(rs, ActiveRentalsQuery(today)) + Count(rs, StatusQuery({Completed}))
            + Count(rs, StatusQuery({Overdue})) <= |rs|
  {
    if rs != [] {
      DisjointStatusCounts(rs[1..], today);
    }
  }
}
