/** Dashboard figures and revenue per day (rental_app/services/statistics_service.py).
    The first day of the current month is a parameter. */
module StatisticsService {
  import opened Entities
  import CarService
  import RentalService

  // ---------------------------------------------------------------------------
  // Dashboard
  // ---------------------------------------------------------------------------

  /** Completed rentals whose effective end date is on or after `monthStart`. */
  function MonthQuery(monthStart: Date): RentalQuery
  {
    RentalQuery({Completed}, None, None, None, None, Some(monthStart), None)
  }

  datatype DashboardStats = DashboardStats(
    totalCars: nat,
    availableCars: nat,
    activeRentals: nat,
    totalClients: nat,
    monthlyRevenue: real,
    totalRevenue: real,
    totalDeposits: real,
    totalFines: real)

  /** `get_dashboard_stats` without the top cars: the fleet size and its available cars,
      the running rentals, the number of clients, the revenue of rentals completed this
      month and in total, the deposits taken and the fines charged. With no negative
      costs the month's revenue is part of the total. */
  function GetDashboardStats(cars: seq<Car>, rentals: seq<Rental>, fines: seq<Fine>, payments: seq<Payment>,
                             clientCount: nat, today: Date, monthStart: Date): (s: DashboardStats)
    ensures s.totalCars == |cars| && s.totalClients == clientCount
    ensures s.availableCars == |CarService.GetAvailableCars(cars)| <= s.totalCars
    ensures s.activeRentals == |RentalService.GetActiveRentals(rentals, today)|
    ensures s.totalRevenue == SumTotalCost(Select(rentals, StatusQuery({Completed})))
    ensures s.monthlyRevenue == SumTotalCost(Select(rentals, MonthQuery(monthStart)))
    ensures (forall r :: r in rentals ==> r.totalCost >= 0.0) ==> 0.0 <= s.monthlyRevenue <= s.totalRevenue
    ensures s.totalDeposits == SumPayments(payments, DepositPayment)
    ensures s.totalFines == SumFineAmounts(fines)
  {
    var completed := StatusQuery({Completed});
    SumSelectMonotone(rentals, MonthQuery(monthStart), completed);
    SumTotalCostNonNegative(Select(rentals, MonthQuery(monthStart)));
    DashboardStats(
      |cars|,
      |CarService.GetCarsByStatus(cars, Available)|,
      Count(rentals, RentalService.ActiveRentalsQuery(today)),
      clientCount,
      SumTotalCost(Select(rentals, MonthQuery(monthStart))),
      SumTotalCost(Select(rentals, completed)),
      SumPayments(payments, DepositPayment),
      SumFineAmounts(fines))
  }

  // ---------------------------------------------------------------------------
  // Revenue by day
  // ---------------------------------------------------------------------------

  /** Completed rentals whose effective end date lies in [startDate, endDate]. */
  function PeriodQuery(startDate: Date, endDate: Date): RentalQuery
  {
    RentalQuery({Completed}, None, None, None, None, Some(startDate), Some(endDate))
  }

  /** Some rental of `rs` ends on day `d`. */
  function EndsOn(rs: seq<Rental>, d: Date): (b: bool)
    ensures b <==> exists r :: r in rs && EffectiveEndDate(r) == d
  {
    if rs == [] then false
    else
      assert forall r :: r in rs <==> r in rs[..|rs| - 1] || r == rs[|rs| - 1] by {
        assert rs == rs[..|rs| - 1] + [rs[|rs| - 1]];
      }
      EndsOn(rs[..|rs| - 1], d) || EffectiveEndDate(rs[|rs| - 1]) == d
  }

  /** The total cost of the rentals of `rs` that end on day `d`. */
  function RevenueOn(rs: seq<Rental>, d: Date): real
  {
    if rs == [] then 0.0
    else RevenueOn(rs[..|rs| - 1], d) + (if EffectiveEndDate(rs[|rs| - 1]) == d then rs[|rs| - 1].totalCost else 0.0)
  }

  /** One entry per day of [d, endDate] on which some rental of `rs` ends, with the total
      cost of the rentals ending that day; days strictly ascending. */
  function DailyRevenue(rs: seq<Rental>, d: Date, endDate: Date): (items: seq<(Date, real)>)
    decreases endDate - d
    ensures forall p :: p in items ==> d <= p.0 <= endDate && EndsOn(rs, p.0) && p.1 == RevenueOn(rs, p.0)
    ensures forall x :: d <= x <= endDate && EndsOn(rs, x) ==> (x, RevenueOn(rs, x)) in items
    ensures forall i, j :: 0 <= i < j < |items| ==> items[i].0 < items[j].0
  {
    if d > endDate then []
    else
      var rest := DailyRevenue(rs, d + 1, endDate);
      if EndsOn(rs, d) then
        assert forall k :: 0 <= k < |rest| ==> rest[k] in rest;
        [(d, RevenueOn(rs, d))] + rest
      else rest
  }

  /** The items of a map whose keys lie in [d, endDate], by ascending key. */
  function SortedItems(m: map<Date, real>, d: Date, endDate: Date): (items: seq<(Date, real)>)
    decreases endDate - d
    ensures forall p :: p in items ==> d <= p.0 <= endDate && p.0 in m && p.1 == m[p.0]
    ensures forall x :: x in m && d <= x <= endDate ==> (x, m[x]) in items
    ensures forall i, j :: 0 <= i < j < |items| ==> items[i].0 < items[j].0
  {
    if d > endDate then []
    else
      var rest := SortedItems(m, d + 1, endDate);
      if d in m then
        assert forall k :: 0 <= k < |rest| ==> rest[k] in rest;
        [(d, m[d])] + rest
      else rest
  }

  /** A map holding the total cost per end day of `rs` lists as `DailyRevenue`. */
  lemma {:induction false} SortedItemsOfBuckets(m: map<Date, real>, rs: seq<Rental>, d: Date, endDate: Date)
    requires forall x :: x in m <==> EndsOn(rs, x)
    requires forall x :: x in m ==> m[x] == RevenueOn(rs, x)
    decreases endDate - d
    ensures SortedItems(m, d, endDate) == DailyRevenue(rs, d, endDate)
  {
    if d <= endDate {
      SortedItemsOfBuckets(m, rs, d + 1, endDate);
    }
  }

  /** Adding one rental to the end of the scanned prefix adds its day and its cost. */
  lemma BucketStep(rs: seq<Rental>, i: nat)
    requires i < |rs|
    ensures forall x :: EndsOn(rs[..i + 1], x) <==> EndsOn(rs[..i], x) || EffectiveEndDate(rs[i]) == x
    ensures forall x :: RevenueOn(rs[..i + 1], x)
                        == RevenueOn(rs[..i], x) + (if EffectiveEndDate(rs[i]) == x then rs[i].totalCost else 0.0)
  {
    var p := rs[..i + 1];
    assert p[..|p| - 1] == rs[..i];
    assert p[|p| - 1] == rs[i];
    forall x
      ensures EndsOn(p, x) <==> EndsOn(rs[..i], x) || EffectiveEndDate(rs[i]) == x
      ensures RevenueOn(p, x)
              == RevenueOn(rs[..i], x) + (if EffectiveEndDate(rs[i]) == x then rs[i].totalCost else 0.0)
    {
    }
  }

  /** `get_revenue_by_period`: the included rentals' total costs are added into a bucket
      per effective end date, and the buckets are listed by ascending date. */
  method GetRevenueByPeriod(rentals: seq<Rental>, startDate: Date, endDate: Date)
      returns (items: seq<(Date, real)>)
    ensures items == DailyRevenue(Select(rentals, PeriodQuery(startDate, endDate)), startDate, endDate)
  {
    var rs := Select(rentals, PeriodQuery(startDate, endDate));
    var revenueByDay: map<Date, real> := map[];
    var i := 0;
    while i < |rs|
      invariant 0 <= i <= |rs|
      invariant forall x :: x in revenueByDay <==> EndsOn(rs[..i], x)
      invariant forall x :: x in revenueByDay ==> revenueByDay[x] == RevenueOn(rs[..i], x)
    {
      var rental := rs[i];
      var day := EffectiveEndDate(rental);
      if day !in revenueByDay {
        NoEndNoRevenue(rs[..i], day);
        revenueByDay := revenueByDay[day := 0.0];
      }
      revenueByDay := revenueByDay[day := revenueByDay[day] + rental.totalCost];
      BucketStep(rs, i);
      i := i + 1;
    }
    assert rs[..|rs|] == rs;
    items := SortedItems(revenueByDay, startDate, endDate);
    SortedItemsOfBuckets(revenueByDay, rs, startDate, endDate);
  }

  /** The sum of the amounts of some items. */
  function SumAmounts(items: seq<(Date, real)>): real
  {
    if items == [] then 0.0 else items[0].1 + SumAmounts(items[1..])
  }

  /** The total cost ending on each day of [d, endDate], added up day by day. */
  function RangeRevenue(rs: seq<Rental>, d: Date, endDate: Date): real
    decreases endDate - d
  {
    if d > endDate then 0.0 else RevenueOn(rs, d) + RangeRevenue(rs, d + 1, endDate)
  }

  lemma {:induction false} NoEndNoRevenue(rs: seq<Rental>, d: Date)
    requires !EndsOn(rs, d)
    ensures RevenueOn(rs, d) == 0.0
  {
    if rs != [] {
      assert rs == rs[..|rs| - 1] + [rs[|rs| - 1]];
      NoEndNoRevenue(rs[..|rs| - 1], d);
    }
  }

  lemma {:induction false} DailyRevenueSumsRange(rs: seq<Rental>, d: Date, endDate: Date)
    decreases endDate - d
    ensures SumAmounts(DailyRevenue(rs, d, endDate)) == RangeRevenue(rs, d, endDate)
  {
    if d <= endDate {
      DailyRevenueSumsRange(rs, d + 1, endDate);
      if !EndsOn(rs, d) {
        NoEndNoRevenue(rs, d);
      } else {
        var items := DailyRevenue(rs, d, endDate);
        assert items[1..] == DailyRevenue(rs, d + 1, endDate);
      }
    }
  }

  lemma {:induction false} RangeRevenueAppend(rs: seq<Rental>, r: Rental, d: Date, endDate: Date)
    decreases endDate - d
    ensures RangeRevenue(rs + [r], d, endDate)
         == RangeRevenue(rs, d, endDate) + (if d <= EffectiveEndDate(r) <= endDate then r.totalCost else 0.0)
  {
    assert (rs + [r])[..|rs + [r]| - 1] == rs;
    if d <= endDate {
      RangeRevenueAppend(rs, r, d + 1, endDate);
    }
  }

  lemma {:induction false} RangeRevenueIsTotal(rs: seq<Rental>, startDate: Date, endDate: Date)
    requires forall r :: r in rs ==> startDate <= EffectiveEndDate(r) <= endDate
    ensures RangeRevenue(rs, startDate, endDate) == SumTotalCost(rs)
  {
    if rs == [] {
      ZeroRangeRevenue(startDate, endDate);
    } else {
      var p, r := rs[..|rs| - 1], rs[|rs| - 1];
      assert rs == p + [r];
      assert r in rs;
      RangeRevenueIsTotal(p, startDate, endDate);
      RangeRevenueAppend(p, r, startDate, endDate);
      SumTotalCostAppend(p, [r]);
    }
  }

  lemma {:induction false} ZeroRangeRevenue(d: Date, endDate: Date)
    decreases endDate - d
    ensures RangeRevenue([], d, endDate) == 0.0
  {
    if d <= endDate {
      ZeroRangeRevenue(d + 1, endDate);
    }
  }

  /** The daily amounts add up to the total cost of the included rentals: no rental is
      lost or counted twice by the grouping. */
  lemma RevenueByPeriodAddsUp(rentals: seq<Rental>, startDate: Date, endDate: Date)
    ensures var rs := Select(rentals, PeriodQuery(startDate, endDate));
            SumAmounts(DailyRevenue(rs, startDate, endDate)) == SumTotalCost(rs)
  {
    var rs := Select(rentals, PeriodQuery(startDate, endDate));
    DailyRevenueSumsRange(rs, startDate, endDate);
    RangeRevenueIsTotal(rs, startDate, endDate);
  }

  /** Every included rental, and only such a rental, is completed and ends on the day of
      some entry, and that entry holds the total cost of the included rentals ending that day. */
  lemma RevenueByPeriodCoversIncluded(rentals: seq<Rental>, startDate: Date, endDate: Date)
    ensures var rs := Select(rentals, PeriodQuery(startDate, endDate));
            forall r :: r in rentals && r.status == Completed && startDate <= EffectiveEndDate(r) <= endDate ==>
              (EffectiveEndDate(r), RevenueOn(rs, EffectiveEndDate(r))) in DailyRevenue(rs, startDate, endDate)
  {
    var rs := Select(rentals, PeriodQuery(startDate, endDate));
    forall r | r in rentals && r.status == Completed && startDate <= EffectiveEndDate(r) <= endDate
      ensures EndsOn(rs, EffectiveEndDate(r))
    {
      assert r in rs;
    }
  }
}
