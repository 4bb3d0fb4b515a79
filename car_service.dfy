/** Car queries and reports (rental_app/services/car_service.py): cars by status, the
    inclusive date-overlap test that makes a car busy, the cars free for a range, the
    occupancy of the last 90 days, the per-car financial report and the occupancy report. */
module CarService {
  import opened Entities

  // ---------------------------------------------------------------------------
  // Cars by status
  // ---------------------------------------------------------------------------

  /** `get_cars_by_status`: the cars with that status, in table order. */
  function GetCarsByStatus(cars: seq<Car>, status: CarStatus): (sel: seq<Car>)
    ensures |sel| <= |cars|
    ensures forall c :: c in sel <==> c in cars && c.status == status
  {
    if cars == [] then []
    else (if cars[0].status == status then [cars[0]] else []) + GetCarsByStatus(cars[1..], status)
  }

  /** `get_available_cars`: exactly the cars whose status is available. */
  function GetAvailableCars(cars: seq<Car>): (sel: seq<Car>)
    ensures forall c :: c in sel <==> c in cars && IsAvailable(c)
  {
    GetCarsByStatus(cars, Available)
  }

  // ---------------------------------------------------------------------------
  // Busy cars
  // ---------------------------------------------------------------------------

  /** The statuses of rentals that hold a car. */
  const BusyStatuses: set<RentalStatus> := {Active, Pending, Overdue}

  /** Rentals holding a car on some day of [startDate, endDate]; `car` narrows it to one car. */
  function BusyQuery(car: Option<nat>, startDate: Date, endDate: Date): RentalQuery
  {
    RentalQuery(BusyStatuses, car, Some(endDate), Some(startDate), None, None, None)
  }

  /** `is_car_busy_for_dates`: some active, pending or overdue rental of the car starts no
      later than the range ends and is expected back no earlier than the range starts. */
  function IsCarBusyForDates(rentals: seq<Rental>, car: Car, startDate: Date, endDate: Date): (busy: bool)
    ensures busy <==> exists r :: r in rentals && r.car == car.id && r.status in BusyStatuses
                                   && r.startDate <= endDate && r.expectedEndDate >= startDate
  {
    var sel := Select(rentals, BusyQuery(Some(car.id), startDate, endDate));
    assert sel != [] ==> sel[0] in sel;
    sel != []
  }

  /** Rental `r` holds its car on day `d`. */
  predicate Holds(r: Rental, d: Date)
  {
    r.startDate <= d <= r.expectedEndDate
  }

  /** For a non-empty range and rentals whose expected end is not before their start, a
      car is busy exactly when one of its holding rentals holds it on a day of the range:
      the test is an inclusive overlap, so sharing a single end day is enough. */
  lemma BusyMeansSharedDay(rentals: seq<Rental>, car: Car, startDate: Date, endDate: Date)
    requires startDate <= endDate
    requires forall r :: r in rentals ==> r.startDate <= r.expectedEndDate
    ensures IsCarBusyForDates(rentals, car, startDate, endDate) <==>
            exists r, d :: r in rentals && r.car == car.id && r.status in BusyStatuses
                           && startDate <= d <= endDate && Holds(r, d)
  {
    if IsCarBusyForDates(rentals, car, startDate, endDate) {
      var r :| r in rentals && r.car == car.id && r.status in BusyStatuses
               && r.startDate <= endDate && r.expectedEndDate >= startDate;
      var d := if r.startDate <= startDate then startDate else r.startDate;
      assert startDate <= d <= endDate && Holds(r, d);
    }
  }

  /** Concretely, a rental that ends on the first day of the range, or starts on its last
      day, makes the car busy. */
  lemma TouchingRentalMakesCarBusy(rentals: seq<Rental>, car: Car, r: Rental, startDate: Date, endDate: Date)
    requires r in rentals && r.car == car.id && r.status in BusyStatuses
    requires startDate <= endDate && r.startDate <= r.expectedEndDate
    requires r.expectedEndDate == startDate || r.startDate == endDate
    ensures IsCarBusyForDates(rentals, car, startDate, endDate)
  {
  }

  /** The keys of the cars held by some rental on a day of the range. */
  function BusyCarIds(rentals: seq<Rental>, startDate: Date, endDate: Date): (ids: set<nat>)
    ensures forall r :: r in rentals && Matches(BusyQuery(None, startDate, endDate), r) ==> r.car in ids
    ensures forall id :: id in ids ==>
              exists r :: r in rentals && r.car == id && Matches(BusyQuery(None, startDate, endDate), r)
  {
    set r | r in Select(rentals, BusyQuery(None, startDate, endDate)) :: r.car
  }

  /** `all_cars.exclude(id__in=ids)`, in table order. */
  function ExcludeIds(cars: seq<Car>, ids: set<nat>): (sel: seq<Car>)
    ensures forall c :: c in sel <==> c in cars && c.id !in ids
  {
    if cars == [] then []
    else (if cars[0].id in ids then [] else [cars[0]]) + ExcludeIds(cars[1..], ids)
  }

  /** `get_cars_available_for_dates`: exactly the cars that are not busy for the range,
      whatever their own status. */
  function GetCarsAvailableForDates(cars: seq<Car>, rentals: seq<Rental>, startDate: Date, endDate: Date)
    : (sel: seq<Car>)
    ensures forall c :: c in sel <==> c in cars && !IsCarBusyForDates(rentals, c, startDate, endDate)
  {
    ExcludeIds(cars, BusyCarIds(rentals, startDate, endDate))
  }

  // ---------------------------------------------------------------------------
  // Occupancy
  // ---------------------------------------------------------------------------

  function Max(a: int, b: int): int { if a >= b then a else b }

  function Min(a: int, b: int): int { if a <= b then a else b }

  /** Active or completed rentals of the car that start by the window's end and are
      expected back no earlier than its start. */
  function OccupancyQuery(carId: nat, windowStart: Date, windowEnd: Date): RentalQuery
  {
    RentalQuery({Active, Completed}, Some(carId), Some(windowEnd), Some(windowStart), None, None, None)
  }

  /** The days of the window a rental covers, from its start to its actual end date (or
      expected end date while none is set), both ends counted. */
  function ClippedDays(r: Rental, windowStart: Date, windowEnd: Date): (n: nat)
    ensures n <= Max(windowEnd - windowStart + 1, 0)
    ensures n <= Max(EffectiveEndDate(r) - r.startDate + 1, 0)
    ensures n > 0 <==> (&& r.startDate <= windowEnd && EffectiveEndDate(r) >= windowStart
                        && r.startDate <= EffectiveEndDate(r) && windowStart <= windowEnd)
  {
    var rentalStart := Max(r.startDate, windowStart);
    var rentalEnd := Min(EffectiveEndDate(r), windowEnd);
    if rentalEnd >= rentalStart then rentalEnd - rentalStart + 1 else 0
  }

  /** The covered days of some rentals, added up. */
  function RentedDaysOf(rs: seq<Rental>, windowStart: Date, windowEnd: Date): (n: nat)
    ensures n <= |rs| * Max(windowEnd - windowStart + 1, 0)
  {
    if rs == [] then 0
    else
      var w := Max(windowEnd - windowStart + 1, 0);
      assert (|rs| - 1) * w + w == |rs| * w;
      RentedDaysOf(rs[..|rs| - 1], windowStart, windowEnd) + ClippedDays(rs[|rs| - 1], windowStart, windowEnd)
  }

  /** The loop of `_calculate_occupancy_rate`: the days of [windowStart, windowEnd] covered
      by the counted rentals of the car. */
  method RentedDays(rentals: seq<Rental>, carId: nat, windowStart: Date, windowEnd: Date)
      returns (rentedDays: nat)
    ensures rentedDays == RentedDaysOf(Select(rentals, OccupancyQuery(carId, windowStart, windowEnd)),
                                       windowStart, windowEnd)
    ensures rentedDays <= Count(rentals, OccupancyQuery(carId, windowStart, windowEnd))
                          * Max(windowEnd - windowStart + 1, 0)
  {
    var rs := Select(rentals, OccupancyQuery(carId, windowStart, windowEnd));
    rentedDays := 0;
    var i := 0;
    while i < |rs|
      invariant 0 <= i <= |rs|
      invariant rentedDays == RentedDaysOf(rs[..i], windowStart, windowEnd)
    {
      var rental := rs[i];
      var rentalStart := Max(rental.startDate, windowStart);
      var rentalEnd := Min(EffectiveEndDate(rental), windowEnd);
      ghost var before := rentedDays;
      if rentalEnd >= rentalStart {
        rentedDays := rentedDays + (rentalEnd - rentalStart) + 1;
      }
      assert rentedDays == before + ClippedDays(rental, windowStart, windowEnd);
      assert rs[..i + 1][..i] == rs[..i] && rs[..i + 1][i] == rental;
      i := i + 1;
    }
    assert rs[..|rs|] == rs;
    assert rentedDays == RentedDaysOf(rs, windowStart, windowEnd);
  }

  /** The days the rate is taken over. */
  const OccupancyTotalDays: int := 90

  /** The rate as written: the window runs from 90 days before today to today, which is
      91 days counted inclusively, while the rate divides by 90. */
  function OccupancyRateAsWritten(rentals: seq<Rental>, carId: nat, today: Date): real
  {
    var windowStart := today - OccupancyTotalDays;
    (RentedDaysOf(Select(rentals, OccupancyQuery(carId, windowStart, today)), windowStart, today) as real)
      / (OccupancyTotalDays as real) * 100.0
  }

  /** The rate over a window of exactly 90 days, today included. */
  function OccupancyRate(rentals: seq<Rental>, carId: nat, today: Date): real
  {
    var windowStart := today - (OccupancyTotalDays - 1);
    (RentedDaysOf(Select(rentals, OccupancyQuery(carId, windowStart, today)), windowStart, today) as real)
      / (OccupancyTotalDays as real) * 100.0
  }

  /** `_calculate_occupancy_rate` as written. */
  method CalculateOccupancyRateAsWritten(rentals: seq<Rental>, carId: nat, today: Date) returns (rate: real)
    ensures rate == OccupancyRateAsWritten(rentals, carId, today)
  {
    var endDate := today;
    var startDate := endDate - OccupancyTotalDays;
    var rentedDays := RentedDays(rentals, carId, startDate, endDate);
    rate := (rentedDays as real) / (OccupancyTotalDays as real) * 100.0;
  }

  /** `_calculate_occupancy_rate` with the window cut to the 90 days it divides by. */
  method CalculateOccupancyRate(rentals: seq<Rental>, carId: nat, today: Date) returns (rate: real)
    ensures rate == OccupancyRate(rentals, carId, today)
    ensures 0.0 <= rate <= 100.0 * (Count(rentals, OccupancyQuery(carId, today - 89, today)) as real)
  {
    var endDate := today;
    var startDate := endDate - (OccupancyTotalDays - 1);
    var rentedDays := RentedDays(rentals, carId, startDate, endDate);
    rate := (rentedDays as real) / (OccupancyTotalDays as real) * 100.0;
  }

  /** As written, one active rental of the car covering the whole window (started 90 or
      more days ago, expected back today or later) counts 91 days and gives a rate above
      100 percent. */
  lemma OccupancyAsWrittenExceedsFullTime(r: Rental, today: Date)
    requires r.status == Active && r.actualEndDate == None
    requires r.startDate <= today - 90 && r.expectedEndDate >= today
    ensures RentedDaysOf(Select([r], OccupancyQuery(r.car, today - 90, today)), today - 90, today) == 91
    ensures OccupancyRateAsWritten([r], r.car, today) > 100.0
  {
    assert Select([r], OccupancyQuery(r.car, today - 90, today)) == [r];
    assert [r][..0] == [];
  }

  /** With the 90-day window, the same rental gives exactly 100 percent, and a car with at
      most one counted rental never goes above 100 percent. */
  lemma OccupancyRateAtMostFullTime(rentals: seq<Rental>, r: Rental, today: Date)
    requires r.status == Active && r.actualEndDate == None
    requires r.startDate <= today - 89 && r.expectedEndDate >= today
    ensures OccupancyRate([r], r.car, today) == 100.0
    ensures forall carId: nat :: Count(rentals, OccupancyQuery(carId, today - 89, today)) <= 1
              ==> OccupancyRate(rentals, carId, today) <= 100.0
  {
    assert Select([r], OccupancyQuery(r.car, today - 89, today)) == [r];
    assert [r][..0] == [];
  }

  // ---------------------------------------------------------------------------
  // Financial report
  // ---------------------------------------------------------------------------

  /** The fines recorded against one rental. */
  function FinesOf(fines: seq<Fine>, rentalId: nat): (fs: seq<Fine>)
    ensures forall f :: f in fs <==> f in fines && f.rental == rentalId
  {
    if fines == [] then []
    else (if fines[0].rental == rentalId then [fines[0]] else []) + FinesOf(fines[1..], rentalId)
  }

  lemma {:induction false} FinesOfAppend(a: seq<Fine>, b: seq<Fine>, rentalId: nat)
    ensures FinesOf(a + b, rentalId) == FinesOf(a, rentalId) + FinesOf(b, rentalId)
  {
    if a == [] {
      assert a + b == b;
    } else {
      assert (a + b)[1..] == a[1..] + b;
      FinesOfAppend(a[1..], b, rentalId);
    }
  }

  lemma {:induction false} FinesOfOwn(fs: seq<Fine>, rentalId: nat)
    requires forall f :: f in fs ==> f.rental == rentalId
    ensures FinesOf(fs, rentalId) == fs
  {
    if fs != [] {
      assert fs[0] in fs;
      assert forall f :: f in fs[1..] ==> f in fs;
      FinesOfOwn(fs[1..], rentalId);
      assert fs == [fs[0]] + fs[1..];
    }
  }

  lemma {:induction false} FinesOfNone(fs: seq<Fine>, rentalId: nat)
    requires forall f :: f in fs ==> f.rental != rentalId
    ensures FinesOf(fs, rentalId) == []
  {
    if fs != [] {
      assert fs[0] in fs;
      assert forall f :: f in fs[1..] ==> f in fs;
      FinesOfNone(fs[1..], rentalId);
    }
  }

  /** The fines of some rentals, added up rental by rental. */
  function FinesOfRentals(rs: seq<Rental>, fines: seq<Fine>): real
  {
    if rs == [] then 0.0 else SumFineAmounts(FinesOf(fines, rs[0].id)) + FinesOfRentals(rs[1..], fines)
  }

  datatype FinancialReport = FinancialReport(
    car: Car,
    totalRentals: nat,
    totalRevenue: real,
    totalFines: real,
    netRevenue: real,
    occupancyRate: real)

  /** `get_car_financial_report`: the count and revenue of the car's completed rentals, the
      fines recorded against them, the revenue net of those fines, and the occupancy rate. */
  method GetCarFinancialReport(car: Car, rentals: seq<Rental>, fines: seq<Fine>, today: Date)
      returns (report: FinancialReport)
    ensures report.car == car
    ensures report.totalRentals == TotalRentalsCount(rentals, car.id)
    ensures report.totalRevenue == TotalRevenue(rentals, car.id)
    ensures report.totalFines == FinesOfRentals(Select(rentals, CompletedOfCar(car.id)), fines)
    ensures report.netRevenue == report.totalRevenue - report.totalFines
    ensures report.totalRentals == 0 ==> report.totalRevenue == 0.0 && report.netRevenue == 0.0
    ensures report.occupancyRate == OccupancyRate(rentals, car.id, today)
  {
    var completedRentals := Select(rentals, CompletedOfCar(car.id));
    var totalRevenue := SumTotalCost(completedRentals);
    var totalFines := FinesOfRentals(completedRentals, fines);
    var occupancyRate := CalculateOccupancyRate(rentals, car.id, today);
    report := FinancialReport(car, |completedRentals|, totalRevenue, totalFines,
                              totalRevenue - totalFines, occupancyRate);
  }

  /** When every completed rental of the car carries its recorded fines inside its total
      cost, the net revenue is not negative. `RentalService.CompletionKeepsFinesInsideCost`
      says when a completion leaves a rental so; `RentalService.EarlyCompletionPricedBelowFines`
      and `RentalService.SecondCompletionCountsFinesTwice` show the two ways it does not. */
  lemma {:induction false} NetRevenueNonNegative(rs: seq<Rental>, fines: seq<Fine>)
    requires forall r :: r in rs ==> SumFineAmounts(FinesOf(fines, r.id)) <= r.totalCost
    ensures SumTotalCost(rs) - FinesOfRentals(rs, fines) >= 0.0
  {
    if rs != [] {
      assert rs[0] in rs;
      NetRevenueNonNegative(rs[1..], fines);
    }
  }

  // ---------------------------------------------------------------------------
  // Occupancy report
  // ---------------------------------------------------------------------------

  datatype OccupancyEntry = OccupancyEntry(car: Car, status: CarStatus, occupancyRate: real, totalRentals: nat)

  /** All rentals of a car, whatever their status. */
  function RentalsOfCar(carId: nat): RentalQuery
  {
    RentalQuery(AllStatuses, Some(carId), None, None, None, None, None)
  }

  /** The entry of one car: its status, its occupancy rate and the number of all its rentals. */
  function OccupancyEntryOf(car: Car, rentals: seq<Rental>, today: Date): OccupancyEntry
  {
    OccupancyEntry(car, car.status, OccupancyRate(rentals, car.id, today), Count(rentals, RentalsOfCar(car.id)))
  }

  /** The entries of the cars in table order. */
  function Entries(cars: seq<Car>, rentals: seq<Rental>, today: Date): (es: seq<OccupancyEntry>)
    ensures |es| == |cars|
    ensures forall i :: 0 <= i < |cars| ==> es[i] == OccupancyEntryOf(cars[i], rentals, today)
  {
    if cars == [] then [] else [OccupancyEntryOf(cars[0], rentals, today)] + Entries(cars[1..], rentals, today)
  }

  predicate SortedByRateDesc(es: seq<OccupancyEntry>)
  {
    forall i, j :: 0 <= i < j < |es| ==> es[i].occupancyRate >= es[j].occupancyRate
  }

  /** Places `e` after the entries with a higher rate and before the rest. */
  function InsertByRate(e: OccupancyEntry, sorted: seq<OccupancyEntry>): (out: seq<OccupancyEntry>)
    ensures multiset(out) == multiset(sorted) + multiset{e}
    ensures forall x :: x in out <==> x == e || x in sorted
  {
    if sorted == [] then [e]
    else if sorted[0].occupancyRate > e.occupancyRate then
      assert sorted == [sorted[0]] + sorted[1..];
      [sorted[0]] + InsertByRate(e, sorted[1..])
    else [e] + sorted
  }

  lemma {:induction false} InsertByRateSorted(e: OccupancyEntry, sorted: seq<OccupancyEntry>)
    requires SortedByRateDesc(sorted)
    ensures SortedByRateDesc(InsertByRate(e, sorted))
  {
    if sorted == [] {
    } else if sorted[0].occupancyRate > e.occupancyRate {
      var head, tail := sorted[0], sorted[1..];
      assert forall x :: x in tail ==> x.occupancyRate <= head.occupancyRate by {
        forall x | x in tail
          ensures x.occupancyRate <= head.occupancyRate
        {
          var k :| 0 <= k < |tail| && tail[k] == x;
          assert sorted[k + 1] == x;
        }
      }
      InsertByRateSorted(e, tail);
      SortedCons(head, InsertByRate(e, tail));
    } else {
      assert forall x :: x in sorted ==> x.occupancyRate <= e.occupancyRate by {
        forall x | x in sorted
          ensures x.occupancyRate <= e.occupancyRate
        {
          var k :| 0 <= k < |sorted| && sorted[k] == x;
          assert sorted[0].occupancyRate >= sorted[k].occupancyRate || k == 0;
        }
      }
      SortedCons(e, sorted);
    }
  }

  /** An entry rated at least as high as all of a sorted list can go in front of it. */
  lemma SortedCons(h: OccupancyEntry, t: seq<OccupancyEntry>)
    requires SortedByRateDesc(t)
    requires forall x :: x in t ==> x.occupancyRate <= h.occupancyRate
    ensures SortedByRateDesc([h] + t)
  {
    var out := [h] + t;
    forall i, j | 0 <= i < j < |out|
      ensures out[i].occupancyRate >= out[j].occupancyRate
    {
      assert out[j] == t[j - 1];
      if i > 0 {
        assert out[i] == t[i - 1];
      } else {
        assert t[j - 1] in t;
      }
    }
  }

  /** `sorted(report, key=occupancy_rate, reverse=True)`. */
  function SortByRateDesc(es: seq<OccupancyEntry>): (out: seq<OccupancyEntry>)
    ensures SortedByRateDesc(out)
    ensures multiset(out) == multiset(es)
  {
    if es == [] then []
    else
      assert es == [es[0]] + es[1..];
      InsertByRateSorted(es[0], SortByRateDesc(es[1..]));
      InsertByRate(es[0], SortByRateDesc(es[1..]))
  }

  /** `get_cars_occupancy_report`: one entry per car, highest occupancy rate first. */
  method GetCarsOccupancyReport(cars: seq<Car>, rentals: seq<Rental>, today: Date)
      returns (report: seq<OccupancyEntry>)
    ensures |report| == |cars|
    ensures multiset(report) == multiset(Entries(cars, rentals, today))
    ensures SortedByRateDesc(report)
  {
    var entries: seq<OccupancyEntry> := [];
    for k := 0 to |cars|
      invariant |entries| == k
      invariant forall i :: 0 <= i < k ==> entries[i] == OccupancyEntryOf(cars[i], rentals, today)
    {
      var car := cars[k];
      var rate := CalculateOccupancyRate(rentals, car.id, today);
      entries := entries + [OccupancyEntry(car, car.status, rate, Count(rentals, RentalsOfCar(car.id)))];
    }
    assert entries == Entries(cars, rentals, today);
    report := SortByRateDesc(entries);
    assert |report| == |multiset(report)| == |multiset(entries)|;
  }
}
