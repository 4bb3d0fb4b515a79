/** The records of the rental domain (rental_app/models.py): the status enumerations
    with the codes the database stores, the Car, Rental, Fine and Payment rows, their
    declared field bounds and defaults, the derived read-only properties, and the
    filter-and-sum queries that the services run over the rental table. */
module Entities {

  /** A calendar date, as a day number: `b - a` is the number of days from `a` to `b`. */
  type Date = int

  datatype Option<T> = None | Some(value: T)

  datatype Result<T, E> = Ok(value: T) | Err(error: E)

  // ---------------------------------------------------------------------------
  // Status enumerations and their stored codes (the `choices` lists)
  // ---------------------------------------------------------------------------

  datatype CarStatus = Available | Rented | Maintenance | Unavailable

  datatype RentalStatus = Pending | Active | Completed | Overdue | Cancelled

  datatype PaymentType = DepositPayment | RefundPayment | AdditionalPayment | FinePayment

  function CarStatusCode(s: CarStatus): string
  {
    match s
    case Available => "available"
    case Rented => "rented"
    case Maintenance => "maintenance"
    case Unavailable => "unavailable"
  }

  /** The status a stored code stands for; `None` for a code outside the choices. */
  function ParseCarStatus(code: string): (s: Option<CarStatus>)
    ensures s.Some? <==> code in {"available", "rented", "maintenance", "unavailable"}
    ensures s.Some? ==> CarStatusCode(s.value) == code
  {
    if code == "available" then Some(Available)
    else if code == "rented" then Some(Rented)
    else if code == "maintenance" then Some(Maintenance)
    else if code == "unavailable" then Some(Unavailable)
    else None
  }

  function RentalStatusCode(s: RentalStatus): string
  {
    match s
    case Pending => "pending"
    case Active => "active"
    case Completed => "completed"
    case Overdue => "overdue"
    case Cancelled => "cancelled"
  }

  function ParseRentalStatus(code: string): (s: Option<RentalStatus>)
    ensures s.Some? <==> code in {"pending", "active", "completed", "overdue", "cancelled"}
    ensures s.Some? ==> RentalStatusCode(s.value) == code
  {
    if code == "pending" then Some(Pending)
    else if code == "active" then Some(Active)
    else if code == "completed" then Some(Completed)
    else if code == "overdue" then Some(Overdue)
    else if code == "cancelled" then Some(Cancelled)
    else None
  }

  function PaymentTypeCode(t: PaymentType): string
  {
    match t
    case DepositPayment => "deposit"
    case RefundPayment => "refund"
    case AdditionalPayment => "additional"
    case FinePayment => "fine"
  }

  function ParsePaymentType(code: string): (t: Option<PaymentType>)
    ensures t.Some? <==> code in {"deposit", "refund", "additional", "fine"}
    ensures t.Some? ==> PaymentTypeCode(t.value) == code
  {
    if code == "deposit" then Some(DepositPayment)
    else if code == "refund" then Some(RefundPayment)
    else if code == "additional" then Some(AdditionalPayment)
    else if code == "fine" then Some(FinePayment)
    else None
  }

  /** Every status has its own code, and parsing the code gives the status back. */
  lemma StatusCodesRoundTrip(c: CarStatus, r: RentalStatus, p: PaymentType)
    ensures ParseCarStatus(CarStatusCode(c)) == Some(c)
    ensures ParseRentalStatus(RentalStatusCode(r)) == Some(r)
    ensures ParsePaymentType(PaymentTypeCode(p)) == Some(p)
  {
  }

  // ---------------------------------------------------------------------------
  // Rows
  // ---------------------------------------------------------------------------

  /** A car of the fleet; `id` is its primary key, `carType` the key of its CarType row. */
  datatype Car = Car(id: nat, carType: nat, year: int, dailyPrice: real, status: CarStatus)

  /** A rental of one car by one client. `dailyCost` is the car's daily price copied
      at creation; `actualEndDate` is set on completion. */
  datatype Rental = Rental(
    id: nat,
    client: nat,
    car: nat,
    startDate: Date,
    expectedEndDate: Date,
    actualEndDate: Option<Date>,
    deposit: real,
    dailyCost: real,
    totalCost: real,
    status: RentalStatus,
    damageLevel: int,
    lateDays: int)

  /** The reason text of a fine, by the two kinds the completion writes. */
  datatype FineReason = DamageReason(level: int) | LateReason(days: int)

  datatype Fine = Fine(rental: nat, reason: FineReason, amount: real)

  datatype Payment = Payment(rental: nat, paymentType: PaymentType, amount: real)

  // ---------------------------------------------------------------------------
  // Declared bounds (model validators) and defaults
  // ---------------------------------------------------------------------------

  /** The smallest amount a money field with `MinValueValidator(0.01)` accepts. */
  const MinMoney: real := 0.01

  predicate CarFieldsValid(c: Car)
  {
    1900 <= c.year <= 2100 && c.dailyPrice >= MinMoney
  }

  predicate RentalFieldsValid(r: Rental)
  {
    r.deposit >= MinMoney && 0 <= r.damageLevel <= 3
  }

  predicate FineFieldsValid(f: Fine)
  {
    f.amount >= MinMoney
  }

  predicate PaymentFieldsValid(p: Payment)
  {
    p.amount >= MinMoney
  }

  /** A rental row created from the given fields, every other field at its declared
      default: no actual end date, total cost 0.00, status pending, damage level 0,
      no late days. */
  function NewRental(id: nat, client: nat, car: nat, startDate: Date, expectedEndDate: Date,
                     deposit: real, dailyCost: real): (r: Rental)
    ensures r.id == id && r.client == client && r.car == car
    ensures r.startDate == startDate && r.expectedEndDate == expectedEndDate
    ensures r.deposit == deposit && r.dailyCost == dailyCost
    ensures r.actualEndDate == None && r.totalCost == 0.0 && r.status == Pending
    ensures r.damageLevel == 0 && r.lateDays == 0
    ensures deposit >= MinMoney ==> RentalFieldsValid(r)
  {
    Rental(id, client, car, startDate, expectedEndDate, None, deposit, dailyCost, 0.0, Pending, 0, 0)
  }

  // ---------------------------------------------------------------------------
  // Derived properties
  // ---------------------------------------------------------------------------

  /** `Car.is_available`: the stored status code is the available one. */
  predicate IsAvailable(c: Car): (b: bool)
    ensures b <==> CarStatusCode(c.status) == "available"
  {
    c.status == Available
  }

  /** The day a rental ends for reporting: its actual end date when set, else the expected one. */
  function EffectiveEndDate(r: Rental): (d: Date)
    ensures r.actualEndDate.Some? ==> Some(d) == r.actualEndDate
    ensures r.actualEndDate.None? ==> d == r.expectedEndDate
  {
    match r.actualEndDate
    case Some(d) => d
    case None => r.expectedEndDate
  }

  /** Days from the start date to the actual end date (or to today while it runs), both ends counted. */
  function DaysRented(r: Rental, today: Date): (n: int)
    // a returned rental no longer depends on the clock
    ensures r.actualEndDate.Some? ==> n == r.actualEndDate.value - r.startDate + 1
    ensures r.actualEndDate.None? ==> n == today - r.startDate + 1
    // both ends are counted: returned (or looked at) on its first day, a rental has one day
    ensures (if r.actualEndDate.Some? then r.actualEndDate.value else today) == r.startDate ==> n == 1
  {
    var endDate := match r.actualEndDate case Some(d) => d case None => today;
    endDate - r.startDate + 1
  }

  /** `Rental.is_overdue`: still active on the stored code and past its expected end. */
  predicate IsOverdue(r: Rental, today: Date): (b: bool)
    ensures b <==> RentalStatusCode(r.status) == "active" && today > r.expectedEndDate
  {
    r.status == Active && today > r.expectedEndDate
  }

  // ---------------------------------------------------------------------------
  // Queries over the rental table: a record of the field lookups a `filter` uses
  // ---------------------------------------------------------------------------

  /** The lookups of one `Rental.objects.filter(...)`: `status__in`, `car`,
      `start_date__lte`, `expected_end_date__gte`, `expected_end_date__lt`, and a range
      on the effective end date (the actual end date when set, else the expected one). */
  datatype RentalQuery = RentalQuery(
    statusIn: set<RentalStatus>,
    car: Option<nat>,
    startLte: Option<Date>,
    expectedGte: Option<Date>,
    expectedLt: Option<Date>,
    effectiveEndGte: Option<Date>,
    effectiveEndLte: Option<Date>)

  const AllStatuses: set<RentalStatus> := {Pending, Active, Completed, Overdue, Cancelled}

  /** A query with only a status lookup. */
  function StatusQuery(statuses: set<RentalStatus>): RentalQuery
  {
    RentalQuery(statuses, None, None, None, None, None, None)
  }

  predicate Matches(q: RentalQuery, r: Rental)
  {
    && r.status in q.statusIn
    && (q.car.Some? ==> r.car == q.car.value)
    && (q.startLte.Some? ==> r.startDate <= q.startLte.value)
    && (q.expectedGte.Some? ==> r.expectedEndDate >= q.expectedGte.value)
    && (q.expectedLt.Some? ==> r.expectedEndDate < q.expectedLt.value)
    && (q.effectiveEndGte.Some? ==> EffectiveEndDate(r) >= q.effectiveEndGte.value)
    && (q.effectiveEndLte.Some? ==> EffectiveEndDate(r) <= q.effectiveEndLte.value)
  }

  /** The rows of `rs` that match `q`, in table order. */
  function Select(rs: seq<Rental>, q: RentalQuery): (sel: seq<Rental>)
    ensures |sel| <= |rs|
    ensures forall r :: r in sel <==> r in rs && Matches(q, r)
  {
    if rs == [] then []
    else (if Matches(q, rs[0]) then [rs[0]] else []) + Select(rs[1..], q)
  }

  /** Filtering distributes over a table split in two. */
  lemma {:induction false} SelectAppend(a: seq<Rental>, b: seq<Rental>, q: RentalQuery)
    ensures Select(a + b, q) == Select(a, q) + Select(b, q)
  {
    if a == [] {
      assert a + b == b;
    } else {
      assert (a + b)[0] == a[0];
      assert (a + b)[1..] == a[1..] + b;
      SelectAppend(a[1..], b, q);
    }
  }

  /** A filter that no row matches selects nothing. */
  lemma {:induction false} SelectNoMatch(rs: seq<Rental>, q: RentalQuery)
    requires forall r :: r in rs ==> !Matches(q, r)
    ensures Select(rs, q) == []
  {
    if rs != [] {
      assert rs[0] in rs;
      SelectNoMatch(rs[1..], q);
    }
  }

  /** `.count()` of a filter. */
  function Count(rs: seq<Rental>, q: RentalQuery): nat
  {
    |Select(rs, q)|
  }

  /** `Sum('total_cost')` over some rows; 0 for no rows, as the `or Decimal('0.00')` fallback gives. */
  function SumTotalCost(rs: seq<Rental>): real
  {
    if rs == [] then 0.0 else rs[0].totalCost + SumTotalCost(rs[1..])
  }

  lemma {:induction false} SumTotalCostAppend(a: seq<Rental>, b: seq<Rental>)
    ensures SumTotalCost(a + b) == SumTotalCost(a) + SumTotalCost(b)
  {
    if a == [] {
      assert a + b == b;
    } else {
      assert (a + b)[1..] == a[1..] + b;
      SumTotalCostAppend(a[1..], b);
    }
  }

  /** Sums of non-negative costs are non-negative. */
  lemma {:induction false} SumTotalCostNonNegative(rs: seq<Rental>)
    ensures (forall r :: r in rs ==> r.totalCost >= 0.0) ==> SumTotalCost(rs) >= 0.0
  {
    if rs != [] {
      assert rs[0] in rs;
      assert forall r :: r in rs[1..] ==> r in rs;
      SumTotalCostNonNegative(rs[1..]);
    }
  }

  /** `Sum('amount')` over fines; 0 for no fines. */
  function SumFineAmounts(fs: seq<Fine>): real
  {
    if fs == [] then 0.0 else fs[0].amount + SumFineAmounts(fs[1..])
  }

  lemma {:induction false} SumFineAmountsAppend(a: seq<Fine>, b: seq<Fine>)
    ensures SumFineAmounts(a + b) == SumFineAmounts(a) + SumFineAmounts(b)
  {
    if a == [] {
      assert a + b == b;
    } else {
      assert (a + b)[1..] == a[1..] + b;
      SumFineAmountsAppend(a[1..], b);
    }
  }

  lemma {:induction false} SumFineAmountsNonNegative(fs: seq<Fine>)
    ensures (forall f :: f in fs ==> f.amount >= 0.0) ==> SumFineAmounts(fs) >= 0.0
  {
    if fs != [] {
      assert fs[0] in fs;
      assert forall f :: f in fs[1..] ==> f in fs;
      SumFineAmountsNonNegative(fs[1..]);
    }
  }

  /** `Sum('amount')` over the payments of one type; 0 for none. */
  function SumPayments(ps: seq<Payment>, t: PaymentType): real
  {
    if ps == [] then 0.0
    else (if ps[0].paymentType == t then ps[0].amount else 0.0) + SumPayments(ps[1..], t)
  }

  // ---------------------------------------------------------------------------
  // Per-car aggregates (Car.total_revenue, Car.total_rentals_count)
  // ---------------------------------------------------------------------------

  /** `car.rentals.filter(status='completed')`. */
  function CompletedOfCar(carId: nat): RentalQuery
  {
    RentalQuery({Completed}, Some(carId), None, None, None, None, None)
  }

  /** Sum of the total cost of the car's completed rentals, 0.00 when there are none. */
  function TotalRevenue(rentals: seq<Rental>, carId: nat): (t: real)
    ensures (forall r :: r in rentals ==> r.car != carId || r.status != Completed) ==> t == 0.0
    ensures (forall r :: r in rentals ==> r.totalCost >= 0.0) ==> t >= 0.0
  {
    SumTotalCostNonNegative(Select(rentals, CompletedOfCar(carId)));
    assert Select(rentals, CompletedOfCar(carId)) != [] ==>
             Select(rentals, CompletedOfCar(carId))[0] in Select(rentals, CompletedOfCar(carId));
    SumTotalCost(Select(rentals, CompletedOfCar(carId)))
  }

  /** Number of the car's completed rentals. */
  function TotalRentalsCount(rentals: seq<Rental>, carId: nat): (n: nat)
    ensures n <= |rentals|
    ensures n == 0 <==> forall r :: r in rentals ==> r.car != carId || r.status != Completed
  {
    assert Select(rentals, CompletedOfCar(carId)) != [] ==>
             Select(rentals, CompletedOfCar(carId))[0] in Select(rentals, CompletedOfCar(carId));
    Count(rentals, CompletedOfCar(carId))
  }

  /** Revenue counts only completed rentals of that car: a table of rentals none of which
      is a completed rental of the car has revenue 0 and count 0, and adding such rows to
      a table changes neither figure. */
  lemma {:induction false} CarAggregatesIgnoreOtherRows(rentals: seq<Rental>, extra: seq<Rental>, carId: nat)
    requires forall r :: r in extra ==> r.car != carId || r.status != Completed
    ensures TotalRevenue(extra, carId) == 0.0 && TotalRentalsCount(extra, carId) == 0
    ensures TotalRevenue(rentals + extra, carId) == TotalRevenue(rentals, carId)
    ensures TotalRentalsCount(rentals + extra, carId) == TotalRentalsCount(rentals, carId)
  {
    var q := CompletedOfCar(carId);
    SelectNoMatch(extra, q);
    SelectAppend(rentals, extra, q);
    assert Select(rentals + extra, q) == Select(rentals, q);
  }

  /** With no negative total costs, a narrower filter never sums to more than a wider one. */
  lemma {:induction false} SumSelectMonotone(rs: seq<Rental>, narrow: RentalQuery, wide: RentalQuery)
    requires forall r :: r in rs && Matches(narrow, r) ==> Matches(wide, r)
    ensures (forall r :: r in rs ==> r.totalCost >= 0.0) ==>
              SumTotalCost(Select(rs, narrow)) <= SumTotalCost(Select(rs, wide))
  {
    if rs != [] && forall r :: r in rs ==> r.totalCost >= 0.0 {
      var r, rest := rs[0], rs[1..];
      assert r in rs;
      assert forall x :: x in rest ==> x in rs;
      SumSelectMonotone(rest, narrow, wide);
      var n := if Matches(narrow, r) then [r] else [];
      var w := if Matches(wide, r) then [r] else [];
      SumTotalCostAppend(n, Select(rest, narrow));
      SumTotalCostAppend(w, Select(rest, wide));
    }
  }

  /** With no negative total costs, a car's revenue is never negative and never more than
      the revenue of all completed rentals in the table. */
  lemma TotalRevenueBounds(rentals: seq<Rental>, carId: nat)
    requires forall r :: r in rentals ==> r.totalCost >= 0.0
    ensures 0.0 <= TotalRevenue(rentals, carId) <= SumTotalCost(Select(rentals, StatusQuery({Completed})))
  {
    SumSelectMonotone(rentals, CompletedOfCar(carId), StatusQuery({Completed}));
    SumTotalCostNonNegative(Select(rentals, CompletedOfCar(carId)));
  }
}
