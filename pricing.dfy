/** Rental price formulas (rental_app/patterns/pricing_strategy.py): four strategies over
    an inclusive day count, the year multiplier and duration discount brackets, the
    breakdown the combined strategy gives for display, and the factory that picks a
    strategy by name. The current year is a parameter. */
module Pricing {
  import opened Entities

  datatype Strategy = Standard | YearBased | DurationBased | Combined

  /** Days from the start date to the end date, both ends counted. */
  function RentalDays(startDate: Date, endDate: Date): int
  {
    (endDate - startDate) + 1
  }

  // ---------------------------------------------------------------------------
  // Brackets
  // ---------------------------------------------------------------------------

  /** The age bracket of a car (the description text shown for it is not modelled). */
  datatype YearBracket = UpToTwoYears | ThreeToFiveYears | SixToTenYears | OverTenYears

  function YearBracketOf(age: int): YearBracket
  {
    if age <= 2 then UpToTwoYears
    else if age <= 5 then ThreeToFiveYears
    else if age <= 10 then SixToTenYears
    else OverTenYears
  }

  /** The price multiplier of an age, `age = current year - year of manufacture`:
      newer cars cost more. */
  function YearMultiplier(age: int): (m: real)
    ensures 0.8 <= m <= 1.2
  {
    match YearBracketOf(age)
    case UpToTwoYears => 1.2
    case ThreeToFiveYears => 1.0
    case SixToTenYears => 0.9
    case OverTenYears => 0.8
  }

  /** The duration bracket of a rental (the description text shown for it is not modelled). */
  datatype DurationBracket = UnderAWeek | WeekOrMore | TwoWeeksOrMore | MonthOrMore

  function DurationBracketOf(days: int): DurationBracket
  {
    if days >= 30 then MonthOrMore
    else if days >= 14 then TwoWeeksOrMore
    else if days >= 7 then WeekOrMore
    else UnderAWeek
  }

  /** The fraction of the price taken off for a rental of `days` days: longer rentals get more. */
  function DurationDiscount(days: int): (d: real)
    ensures 0.0 <= d <= 0.15
  {
    match DurationBracketOf(days)
    case MonthOrMore => 0.15
    case TwoWeeksOrMore => 0.10
    case WeekOrMore => 0.05
    case UnderAWeek => 0.0
  }

  /** The multiplier never grows with age, and the discount never shrinks with duration;
      a car built after the current year (negative age) is in the newest bracket. */
  lemma BracketsMonotone(age1: int, age2: int, days1: int, days2: int)
    ensures age1 <= age2 ==> YearMultiplier(age1) >= YearMultiplier(age2)
    ensures days1 <= days2 ==> DurationDiscount(days1) <= DurationDiscount(days2)
    ensures age1 < 0 ==> YearMultiplier(age1) == 1.2
  {
  }

  /** The bracket edges are inclusive: ages 2, 5 and 10 and durations 7, 14 and 30 days
      belong to the bracket that ends or starts there. */
  lemma BracketBoundaries()
    ensures YearMultiplier(2) == 1.2 && YearMultiplier(3) == 1.0
    ensures YearMultiplier(5) == 1.0 && YearMultiplier(6) == 0.9
    ensures YearMultiplier(10) == 0.9 && YearMultiplier(11) == 0.8
    ensures DurationDiscount(6) == 0.0 && DurationDiscount(7) == 0.05
    ensures DurationDiscount(13) == 0.05 && DurationDiscount(14) == 0.10
    ensures DurationDiscount(29) == 0.10 && DurationDiscount(30) == 0.15
  {
  }

  // ---------------------------------------------------------------------------
  // The four strategies
  // ---------------------------------------------------------------------------

  /** Daily price times the number of days. */
  function StandardPrice(car: Car, startDate: Date, endDate: Date): real
  {
    car.dailyPrice * (RentalDays(startDate, endDate) as real)
  }

  /** Because both ends are counted, pricing two back-to-back ranges costs the same as
      pricing the whole range at once. */
  lemma StandardPriceSplits(car: Car, startDate: Date, middle: Date, endDate: Date)
    ensures StandardPrice(car, startDate, middle) + StandardPrice(car, middle + 1, endDate)
         == StandardPrice(car, startDate, endDate)
  {
    var a, b := RentalDays(startDate, middle) as real, RentalDays(middle + 1, endDate) as real;
    assert a + b == RentalDays(startDate, endDate) as real;
    assert car.dailyPrice * a + car.dailyPrice * b == car.dailyPrice * (a + b);
  }

  /** The standard price scaled by the age multiplier. */
  function YearBasedPrice(car: Car, currentYear: int, startDate: Date, endDate: Date): (p: real)
    ensures p == StandardPrice(car, startDate, endDate) * YearMultiplier(currentYear - car.year)
  {
    var days := RentalDays(startDate, endDate);
    var age := currentYear - car.year;
    car.dailyPrice * (days as real) * YearMultiplier(age)
  }

  /** The standard price less the duration discount. */
  function DurationBasedPrice(car: Car, startDate: Date, endDate: Date): (p: real)
    ensures p == StandardPrice(car, startDate, endDate) * (1.0 - DurationDiscount(RentalDays(startDate, endDate)))
  {
    var days := RentalDays(startDate, endDate);
    var basePrice := car.dailyPrice * (days as real);
    basePrice * (1.0 - DurationDiscount(days))
  }

  /** Age multiplier first, then the duration discount; either order gives the same price. */
  function CombinedPrice(car: Car, currentYear: int, startDate: Date, endDate: Date): (p: real)
    ensures p == YearBasedPrice(car, currentYear, startDate, endDate)
                 * (1.0 - DurationDiscount(RentalDays(startDate, endDate)))
    ensures p == DurationBasedPrice(car, startDate, endDate) * YearMultiplier(currentYear - car.year)
  {
    var days := RentalDays(startDate, endDate);
    var age := currentYear - car.year;
    var basePrice := car.dailyPrice * (days as real) * YearMultiplier(age);
    basePrice * (1.0 - DurationDiscount(days))
  }

  /** The sign of the combined price is the sign of the number of days priced. */
  lemma CombinedPriceSign(car: Car, currentYear: int, startDate: Date, endDate: Date)
    requires car.dailyPrice > 0.0
    ensures RentalDays(startDate, endDate) >= 0 ==> CombinedPrice(car, currentYear, startDate, endDate) >= 0.0
    ensures RentalDays(startDate, endDate) < 0 ==> CombinedPrice(car, currentYear, startDate, endDate) < 0.0
  {
    var days := RentalDays(startDate, endDate);
    var m := YearMultiplier(currentYear - car.year);
    var k := 1.0 - DurationDiscount(days);
    var f := m * k;
    assert f > 0.0;
    assert CombinedPrice(car, currentYear, startDate, endDate) == car.dailyPrice * (days as real) * f;
    if days >= 0 {
      assert car.dailyPrice * (days as real) >= 0.0;
    } else {
      assert car.dailyPrice * (days as real) < 0.0;
    }
  }

  /** The price under a strategy. */
  function CalculatePrice(strategy: Strategy, car: Car, currentYear: int, startDate: Date, endDate: Date): real
  {
    match strategy
    case Standard => StandardPrice(car, startDate, endDate)
    case YearBased => YearBasedPrice(car, currentYear, startDate, endDate)
    case DurationBased => DurationBasedPrice(car, startDate, endDate)
    case Combined => CombinedPrice(car, currentYear, startDate, endDate)
  }

  /** Whatever the strategy, a price over a non-empty range lies between 68% (oldest car,
      longest rental) and 120% (newest car, shortest rental) of the standard price. */
  lemma {:induction false} PriceWithinStandardBounds(strategy: Strategy, car: Car, currentYear: int,
                                                     startDate: Date, endDate: Date)
    requires car.dailyPrice >= 0.0 && startDate <= endDate
    ensures var std, p := StandardPrice(car, startDate, endDate),
                          CalculatePrice(strategy, car, currentYear, startDate, endDate);
            0.68 * std <= p <= 1.2 * std
  {
    var std := StandardPrice(car, startDate, endDate);
    var m := YearMultiplier(currentYear - car.year);
    var d := DurationDiscount(RentalDays(startDate, endDate));
    ProductNonNegative(car.dailyPrice, RentalDays(startDate, endDate) as real);
    assert std * 0.8 <= std * m <= std * 1.2;
    assert std * 0.85 <= std * (1.0 - d) <= std;
    match strategy
    case Standard =>
    case YearBased =>
    case DurationBased =>
    case Combined =>
      var y := std * m;
      assert y >= 0.0;
      assert y * 0.85 <= y * (1.0 - d) <= y;
  }

  lemma ProductNonNegative(a: real, b: real)
    requires a >= 0.0 && b >= 0.0
    ensures a * b >= 0.0
  {
  }

  /** The discount brackets make the price fall where a bracket starts: under the combined
      strategy a 30-day rental costs less than a 29-day one. */
  lemma ThirtyDaysCostLessThanTwentyNine(car: Car, currentYear: int, startDate: Date)
    requires car.dailyPrice > 0.0
    ensures CombinedPrice(car, currentYear, startDate, startDate + 29)
          < CombinedPrice(car, currentYear, startDate, startDate + 28)
  {
    var x := car.dailyPrice * YearMultiplier(currentYear - car.year);
    assert x > 0.0;
    assert CombinedPrice(car, currentYear, startDate, startDate + 29) == x * 25.5;
    assert CombinedPrice(car, currentYear, startDate, startDate + 28) == x * 26.1;
  }

  // ---------------------------------------------------------------------------
  // Breakdown of the combined price
  // ---------------------------------------------------------------------------

  datatype PriceDetails = PriceDetails(
    basePrice: real,
    days: int,
    yearMultiplier: real,
    yearBracket: YearBracket,
    yearAdjustment: real,
    priceWithYear: real,
    durationDiscount: real,
    durationBracket: DurationBracket,
    durationDiscountAmount: real,
    finalPrice: real)

  /** The combined price step by step: the base price, the amount the age adds or takes
      off, the price with it, the amount the duration discount takes off, and the final
      price, which is the combined price itself. */
  function CalculatePriceDetails(car: Car, currentYear: int, startDate: Date, endDate: Date): (d: PriceDetails)
    ensures d.days == RentalDays(startDate, endDate)
    ensures d.basePrice == StandardPrice(car, startDate, endDate)
    ensures d.basePrice + d.yearAdjustment == d.priceWithYear
    ensures d.priceWithYear - d.durationDiscountAmount == d.finalPrice
    ensures d.finalPrice == CombinedPrice(car, currentYear, startDate, endDate)
    ensures d.yearMultiplier == YearMultiplier(currentYear - car.year)
    ensures d.durationDiscount == DurationDiscount(RentalDays(startDate, endDate))
  {
    var days := RentalDays(startDate, endDate);
    var age := currentYear - car.year;
    var basePrice := car.dailyPrice * (days as real);
    var yearMultiplier := YearMultiplier(age);
    var priceWithYear := basePrice * yearMultiplier;
    var yearAdjustment := priceWithYear - basePrice;
    var durationDiscount := DurationDiscount(days);
    var finalPrice := priceWithYear * (1.0 - durationDiscount);
    var durationDiscountAmount := priceWithYear * durationDiscount;
    PriceDetails(basePrice, days, yearMultiplier, YearBracketOf(age), yearAdjustment, priceWithYear,
                 durationDiscount, DurationBracketOf(days), durationDiscountAmount, finalPrice)
  }

  // ---------------------------------------------------------------------------
  // Factory
  // ---------------------------------------------------------------------------

  /** The name the factory knows a strategy by. */
  function StrategyName(s: Strategy): string
  {
    match s
    case Standard => "standard"
    case YearBased => "year_based"
    case DurationBased => "duration_based"
    case Combined => "combined"
  }

  /** The strategy of a name; an unknown name gives the combined strategy. */
  function CreateStrategy(name: string): (s: Strategy)
    ensures name !in {"standard", "year_based", "duration_based"} ==> s == Combined
    ensures s != Combined ==> StrategyName(s) == name
  {
    if name == "standard" then Standard
    else if name == "year_based" then YearBased
    else if name == "duration_based" then DurationBased
    else Combined
  }

  /** The strategy used when none is named. */
  function DefaultStrategy(): (s: Strategy)
    ensures s == Combined
  {
    CreateStrategy("combined")
  }

  /** Every strategy is reached by its own name. */
  lemma CreateStrategyRoundTrip(s: Strategy)
    ensures CreateStrategy(StrategyName(s)) == s
  {
  }

  /** The worked example: a car at 1000 a day made this year, rented for 10 days, costs
      1000 x 10 x 1.2 x 0.95 = 11400 under the default strategy. */
  lemma NewCarTenDaysExample(car: Car, currentYear: int, startDate: Date)
    requires car.dailyPrice == 1000.0 && car.year == currentYear
    ensures CalculatePrice(DefaultStrategy(), car, currentYear, startDate, startDate + 9) == 11400.0
  {
  }
}
