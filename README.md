# Rental CRM business rules in Dafny

This project models the business-rule core of a car rental CRM (a Django application):

- how a rental is priced under four strategies (`Pricing`);
- the fines for damage and late return, and the refund of the deposit (`Fines`);
- how a rental is created and its deposit computed (`RentalFactory`);
- the rental lifecycle (`RentalService`): the status sweep that activates started rentals and marks expired ones overdue, completion with its fine records and refund, and rental statistics;
- the car queries (`CarService`): availability for a date range, occupancy over the last 90 days, the financial report and the occupancy report;
- the dashboard figures and revenue per day (`StatisticsService`);
- the client-side and staff-side form checks (`Forms`, `AdminForms`).

The records of `rental_app/models.py` are datatypes in `Entities`. The database is the class `Store.Db`. Each table is a sequence field, and a row's primary key is its position. `Db.Valid()` is the table invariant that every state-changing operation keeps:

- keys match positions;
- references point at existing rows: a car's type, a rental's car, a fine's or payment's rental;
- cars respect their declared bounds;
- deposits and payments are positive;
- fines belong to completed rentals and are never negative;
- CarType names are unique.

A Django `filter(...)` is a `RentalQuery` record of the field lookups it uses, and `Select` applies it to a table. Sums are `SumTotalCost`, `SumFineAmounts` and `SumPayments`. Each is 0 over no rows, as the `or Decimal('0.00')` fallback makes it.

How the model represents the source:

- Dates are day numbers, so `b - a` is the number of days from `a` to `b`.
- Money is an exact `real`.
- The clock is passed in as parameters: `today`, `currentYear` and `monthStart`.
- The number of client profiles on the dashboard is also a parameter.
- Read-only services take the tables as sequences.
- Services that write take the `Db` and say in their `modifies` and `ensures` clauses exactly what they change.

## Model

| member | source | states |
|---|---|---|
| Entities.ParseCarStatus | rental_app/models.py:59-64 | exactly the four stored car status codes are accepted, each giving the status whose code it is |
| Entities.ParseRentalStatus | rental_app/models.py:105-111 | exactly the five stored rental status codes are accepted, each giving the status whose code it is |
| Entities.ParsePaymentType | rental_app/models.py:170-175 | exactly the four stored payment type codes are accepted, each giving the type whose code it is |
| Entities.StatusCodesRoundTrip | rental_app/models.py:105-111 | every car status, rental status and payment type is given back by parsing its own stored code |
| Entities.NewRental | rental_app/models.py:117-125 | a new rental row has no actual end date, total cost 0, status pending, damage level 0 and no late days; with a deposit of at least 0.01 it meets the declared field bounds |
| Entities.Select | rental_app/models.py:88 | a filter keeps exactly the rows that match all of its lookups, and never more rows than the table has |
| Entities.CarAggregatesIgnoreOtherRows | rental_app/models.py:86-95 | a car's revenue and its count of rentals depend only on its completed rentals: other rows add 0 to both |
| Entities.TotalRevenueBounds | rental_app/models.py:86-90 | with no negative costs, a car's revenue is at least 0 and at most the revenue of all completed rentals |
| Entities.IsAvailable | rental_app/models.py:97-100 | a car is available exactly when its stored status code is `available` |
| Entities.EffectiveEndDate | rental_app/services/statistics_service.py:84-85 | the actual end date when one is set, else the expected end date |
| Entities.DaysRented | rental_app/models.py:137-141 | the days from the start to the actual end date, or to today when there is none, both counted: a returned rental's count does not depend on today, and its first day counts as one |
| Entities.IsOverdue | rental_app/models.py:143-148 | overdue exactly when the stored status code is `active` and today is past the expected end date |
| Entities.TotalRevenue | rental_app/models.py:85-90 | 0 when the car has no completed rental, and never negative when no cost is |
| Entities.TotalRentalsCount | rental_app/models.py:92-95 | at most the number of rows, and 0 exactly when the car has no completed rental |
| Store.Db.constructor | rental_app/models.py:44-46 | an empty database meets the table invariant, including unique CarType names |
| Pricing.YearMultiplier | rental_app/patterns/pricing_strategy.py:73-82 | the age multiplier lies between 0.8 and 1.2 |
| Pricing.DurationDiscount | rental_app/patterns/pricing_strategy.py:84-93 | the duration discount lies between 0 and 0.15 |
| Pricing.BracketsMonotone | rental_app/patterns/pricing_strategy.py:73-93 | the multiplier never grows with age and the discount never shrinks with duration; a negative age gets 1.2 |
| Pricing.BracketBoundaries | rental_app/patterns/pricing_strategy.py:73-93 | bracket edges are inclusive: ages 2/5/10 and durations 7/14/30 belong to the bracket that ends or starts there |
| Pricing.StandardPriceSplits | rental_app/patterns/pricing_strategy.py:24-26 | with both ends counted, pricing two back-to-back ranges equals pricing the whole range |
| Pricing.YearBasedPrice | rental_app/patterns/pricing_strategy.py:32-47 | the year-based price is the standard price times the age multiplier |
| Pricing.DurationBasedPrice | rental_app/patterns/pricing_strategy.py:53-67 | the duration-based price is the standard price less the duration discount |
| Pricing.CombinedPrice | rental_app/patterns/pricing_strategy.py:95-104 | the combined price is the year-based price less the discount, which is also the duration-based price times the multiplier |
| Pricing.CombinedPriceSign | rental_app/patterns/pricing_strategy.py:95-104 | the combined price has the sign of the number of days priced |
| Pricing.PriceWithinStandardBounds | rental_app/patterns/pricing_strategy.py:21-104 | every strategy prices a non-empty range between 68% and 120% of the standard price |
| Pricing.ThirtyDaysCostLessThanTwentyNine | rental_app/patterns/pricing_strategy.py:84-104 | under the combined strategy a 30-day rental costs less than a 29-day one |
| Pricing.CalculatePriceDetails | rental_app/patterns/pricing_strategy.py:106-140 | the breakdown is consistent: base + year adjustment = price with year; price with year - discount amount = final price = the combined price |
| Pricing.CreateStrategy | rental_app/patterns/pricing_strategy.py:146-157 | an unknown name gives the combined strategy; any other result is the strategy of that name |
| Pricing.DefaultStrategy | rental_app/patterns/pricing_strategy.py:159-162 | the default strategy is the combined one |
| Pricing.CreateStrategyRoundTrip | rental_app/patterns/pricing_strategy.py:146-151 | every strategy is reached by its own name |
| Pricing.NewCarTenDaysExample | rental_app/patterns/pricing_strategy.py:95-104 | a new car at 1000 a day costs 11400 for 10 days under the default strategy |
| Fines.DamageFine | rental_app/patterns/fine_calculator.py:35-41 | a level outside the table is charged nothing; the fine is between 0 and half the deposit, and positive exactly for levels 1 to 3 |
| Fines.LateFine | rental_app/patterns/fine_calculator.py:43-48 | 500 per late day, 0 when no day is late, positive exactly when some day is late |
| Fines.TotalFines | rental_app/patterns/fine_calculator.py:57-61 | the total is the damage fine plus the late fine, and is not negative |
| Fines.Refund | rental_app/patterns/fine_calculator.py:63-66 | the refund is never negative; it is deposit - fines when the fines fit in the deposit, and 0 otherwise |
| Fines.RefundSettlesDeposit | rental_app/patterns/fine_calculator.py:63-66 | the part of the deposit kept is between 0 and the deposit and never more than the fines |
| Fines.CompletionExample | rental_app/patterns/fine_calculator.py:26-66 | deposit 3000, level 2 and 3 late days give fines 900 + 1500 = 2400 and a refund of 600 |
| RentalFactory.CalculateDeposit | rental_app/patterns/rental_factory.py:16-21 | the deposit is 30% of the combined price over `rentalDays + 1` days counted from today, and is positive for a positive daily price |
| RentalFactory.CheckNewRental | rental_app/patterns/rental_factory.py:50-57 | the checks run in order (car unavailable, start in the past, end not after start); each error holds exactly when its check is the first to fail |
| RentalFactory.PlanRental | rental_app/patterns/rental_factory.py:59-81 | a refused check gives its error. Otherwise the row has the named strategy's price, the car's daily price and the deposit above; it is active exactly when it starts today and pending otherwise |
| RentalFactory.CreateRental | rental_app/patterns/rental_factory.py:25-94 | a refused check changes nothing. Otherwise exactly one rental and one deposit payment of the same amount are appended, the car becomes rented, and the table invariant holds |
| RentalFactory.ValidateRentalDates | rental_app/patterns/rental_factory.py:97-126 | dates are accepted exactly when today <= start < end and end - start <= 365; each message holds exactly when its check is the first to fail; the minimum-duration branch is never taken |
| RentalFactory.CreationSkipsMaximum | rental_app/patterns/rental_factory.py:50-57 | for an available car, creation accepts exactly the ranges the date check accepts or refuses only for exceeding 365 days |
| RentalFactory.YearAndADayAccepted | rental_app/patterns/rental_factory.py:119-121 | a 366-day range from today is refused by the date check and accepted by creation |
| RentalFactory.DepositExample | rental_app/patterns/rental_factory.py:65-66 | a ten-day rental of a new 1000-a-day car has its deposit priced over 11 days: 3762 |
| RentalService.CreateRental | rental_app/services/rental_service.py:22-38 | creation through the factory with the combined strategy: a refused check gives the factory's first failing check and changes nothing; otherwise exactly the factory's rental row (priced by the combined strategy) and its deposit payment are appended, the car becomes rented, and fines and car types are untouched |
| RentalService.GetActiveRentals | rental_app/services/rental_service.py:54-68 | exactly the active and pending rentals whose start date has come |
| RentalService.ActivatePass | rental_app/services/rental_service.py:84-90 | row by row, pending rentals whose start date has come become active and no other row changes |
| RentalService.OverduePass | rental_app/services/rental_service.py:92-98 | row by row, active rentals past their expected end become overdue and no other row changes |
| RentalService.Sweep | rental_app/services/rental_service.py:84-98 | the two passes equal a one-step decision per row: a started pending rental becomes active, or overdue if also expired; an expired active rental becomes overdue |
| RentalService.UpdateOverdueRentals | rental_app/services/rental_service.py:71-100 | the rental table becomes the sweep of the old one, the returned count is the two passes' counts added, and nothing else changes |
| RentalService.SweepLeavesNothingDue | rental_app/services/rental_service.py:84-100 | after the sweep no rental is pending and started, none is active and expired, and none is overdue by `is_overdue` |
| RentalService.SweepChangesOnlyPendingAndActiveStatus | rental_app/services/rental_service.py:85-98 | the sweep changes only the status, only of pending and active rentals, and only forward |
| RentalService.SweepIdempotent | rental_app/services/rental_service.py:82-100 | a second sweep on the same day changes nothing and returns 0 |
| RentalService.SweepCountDoubleCounts | rental_app/services/rental_service.py:85-100 | the count is the started pending rentals plus the expired active ones plus, once more, the pending rentals that are both started and expired |
| RentalService.PendingPastBothDatesCountedTwice | rental_app/services/rental_service.py:85-100 | a pending rental that has started and expired goes straight to overdue and is counted twice |
| RentalService.CompletedRecord | rental_app/services/rental_service.py:126-140 | the completed row keeps every other field; its total cost is the combined price over [start, actual end] at the car's current price plus the fines, over the days it reports as rented |
| RentalService.CompletionRepricesAtCurrentPrice | rental_app/services/rental_service.py:133-138 | when the car's price has changed since creation, the completed cost differs from the cost at the price copied into the rental |
| RentalService.FineRecords | rental_app/services/rental_service.py:170-184 | a damage fine exactly when the level is positive and a late fine exactly when some day is late, all for this rental; they sum to the total fines and are positive for a positive deposit and a level up to 3 |
| RentalService.CreateFineRecords | rental_app/services/rental_service.py:160-184 | exactly those fine records are appended and nothing else changes |
| RentalService.CompleteRental | rental_app/services/rental_service.py:104-157 | fines and refund come from the rental as it was; the row becomes the completed record; its fines are appended; a refund payment is written exactly when the refund is positive; the car becomes available; nothing else changes |
| RentalService.CompletionAddsToCarRevenue | rental_app/services/rental_service.py:130-140 | completing a rental that was not completed adds its new total cost to its car's revenue and one to its count |
| RentalService.CompletionFineRecords | rental_app/services/rental_service.py:160-184 | the fines a completion writes all belong to that rental and add up to the total fines computed from the rental as it was |
| RentalService.CompletionKeepsFinesInsideCost | rental_app/services/rental_service.py:123-143 | a first completion of a rental (no fines recorded yet, as the table invariant gives for a rental not completed) on a return date no earlier than the day before its start leaves the rental's recorded fines inside its new total cost |
| RentalService.EarlyCompletionPricedBelowFines | rental_app/services/rental_service.py:133-139 | completion does not check the return date against the start: returned more than a day before the start, the priced days and the price are negative and the total cost is below the rental's new fines |
| RentalService.SecondCompletionCountsFinesTwice | rental_app/services/rental_service.py:123-143 | completion does not check the status: completing the same rental again leaves the total cost as it was but records its fines a second time |
| RentalService.CompletionWritesBelowDeclaredMinimum | rental_app/services/rental_service.py:143-184 | completion records a fine of 0 for a damage level above 3, and refunds 0.005 on a 0.01 deposit at the highest damage level: both are below the 0.01 minimum the models declare for fines and payments |
| RentalService.GetRentalStatistics | rental_app/services/rental_service.py:187-223 | each count is its status filter's size and revenue and fines are the sums of completed costs and of all fines; the running, completed and overdue counts together never exceed the table; revenue is 0 with no completed rental; the sums are not negative over non-negative rows |
| RentalService.DisjointStatusCounts | rental_app/services/rental_service.py:205-214 | no rental matches two of the running, completed and overdue filters, so the three counts together never exceed the table |
| CarService.GetCarsByStatus | rental_app/services/car_service.py:71-73 | exactly the cars with that status |
| CarService.GetAvailableCars | rental_app/services/car_service.py:13-15 | exactly the cars whose status is available |
| CarService.IsCarBusyForDates | rental_app/services/car_service.py:51-68 | busy exactly when some active, pending or overdue rental of the car starts no later than the range ends and is expected back no earlier than it starts |
| CarService.BusyMeansSharedDay | rental_app/services/car_service.py:63-68 | for a non-empty range, busy exactly when a holding rental holds the car on some day of the range |
| CarService.TouchingRentalMakesCarBusy | rental_app/services/car_service.py:66-67 | a rental ending on the range's first day, or starting on its last, makes the car busy |
| CarService.BusyCarIds | rental_app/services/car_service.py:41-45 | exactly the keys of cars held by some matching rental |
| CarService.ExcludeIds | rental_app/services/car_service.py:48 | exactly the cars whose key is not excluded |
| CarService.GetCarsAvailableForDates | rental_app/services/car_service.py:18-48 | exactly the cars that are not busy for the range, whatever their own status |
| CarService.ClippedDays | rental_app/services/car_service.py:132-139 | a rental adds days exactly when it overlaps the window, never more than the window's length nor than its own length |
| CarService.RentedDaysOf | rental_app/services/car_service.py:124-139 | the counted days never exceed the number of rentals times the window's length |
| CarService.RentedDays | rental_app/services/car_service.py:124-139 | the loop adds up exactly the clipped days of the counted rentals |
| CarService.CalculateOccupancyRateAsWritten | rental_app/services/car_service.py:114-141 | the rate as written: days covered in [today - 90, today] over 90 |
| CarService.CalculateOccupancyRate | rental_app/services/car_service.py:114-141 | the corrected rate of the Findings row, over the 90 days it divides by; at least 0 and at most 100% per counted rental; the reports use it |
| CarService.OccupancyAsWrittenExceedsFullTime | rental_app/services/car_service.py:120-123 | as written, one active rental covering the whole window counts 91 days and gives more than 100% |
| CarService.OccupancyRateAtMostFullTime | rental_app/services/car_service.py:120-141 | with the 90-day window the same rental gives exactly 100%, and one counted rental never gives more |
| CarService.FinesOf | rental_app/services/car_service.py:89-92 | exactly the fines recorded against the rental |
| CarService.GetCarFinancialReport | rental_app/services/car_service.py:76-111 | count and revenue of the car's completed rentals, their fines, net = revenue - fines, 0 with no completed rental, and the corrected 90-day occupancy rate of the Findings row (weaker: see Left out) |
| CarService.NetRevenueNonNegative | rental_app/services/car_service.py:107-108 | when each completed rental's fines are inside its total cost the net revenue is not negative; completion guarantees that only as `RentalService.CompletionKeepsFinesInsideCost` states |
| CarService.Entries | rental_app/services/car_service.py:155-164 | one entry per car, in table order, with its status, rate and number of rentals |
| CarService.SortByRateDesc | rental_app/services/car_service.py:166 | the result is a permutation of the entries, ordered by rate, highest first |
| CarService.GetCarsOccupancyReport | rental_app/services/car_service.py:153-166 | one entry per car (a permutation of the cars' entries, each with the corrected 90-day rate; see Left out), highest rate first |
| StatisticsService.GetDashboardStats | rental_app/services/statistics_service.py:16-68 | fleet size and available cars; running rentals; revenue this month and in total; deposits; fines; the month's revenue lies between 0 and the total |
| StatisticsService.DailyRevenue | rental_app/services/statistics_service.py:82-91 | one item per day of the range on which an included rental ends, holding those rentals' total cost, with the days strictly ascending |
| StatisticsService.SortedItems | rental_app/services/statistics_service.py:91 | the items of the map whose keys lie in the range, with the keys strictly ascending |
| StatisticsService.GetRevenueByPeriod | rental_app/services/statistics_service.py:71-91 | the bucket loop followed by sorting gives exactly the daily revenue of the completed rentals ending in the range |
| StatisticsService.RevenueByPeriodAddsUp | rental_app/services/statistics_service.py:82-91 | the daily amounts add up to the total cost of the included rentals |
| StatisticsService.RevenueByPeriodCoversIncluded | rental_app/services/statistics_service.py:74-89 | every completed rental ending in the range has its day listed with the total of that day |
| Forms.Strip | rental_app/forms.py:69 | stripping leaves a slice of the text with only whitespace around it and no whitespace at its ends; the result is empty exactly when the text is all whitespace |
| Forms.StripIdempotent | rental_app/forms.py:69 | stripping twice strips nothing more |
| Forms.CleanPhone | rental_app/forms.py:67-72 | a missing or all-whitespace phone is refused; any other phone is returned stripped and non-empty (the same check is repeated at rental_app/forms.py:113-118 and rental_app/admin_forms.py:151-156) |
| Forms.CleanPhoneIdempotent | rental_app/forms.py:67-72 | cleaning a cleaned phone gives it back unchanged |
| Forms.CleanEmail | rental_app/forms.py:60-65 | an email is accepted, unchanged, exactly when no user has registered it |
| Forms.RentalFormClean | rental_app/forms.py:140-174 | with either date missing the form passes; otherwise it passes exactly when today <= start < end and end - start <= 365, reporting the date check's first failure |
| Forms.RentalFormMaximumIsInclusive | rental_app/forms.py:157-171 | a 365-day span is accepted and a 366-day span is refused |
| Forms.CarSearchFormClean | rental_app/forms.py:248-260 | dates are checked only when both are given, and then pass exactly when today <= start < end; only the two date errors occur, and a start in the past is the one reported whenever it holds |
| Forms.SearchPriceRangeNeverChecked | rental_app/forms.py:242-244 | the prices never change the outcome, so a lower bound above the upper bound is accepted |
| Forms.SearchDatesAreRentalDatesWithoutMaximum | rental_app/forms.py:254-258 | within 365 days the search form's date check agrees with the rental form's |
| AdminForms.CleanName | rental_app/admin_forms.py:19-24 | a missing or all-whitespace name is refused; any other is returned stripped, with no whitespace at its ends |
| AdminForms.NameAndPhoneShareRule | rental_app/admin_forms.py:151-156 | a type name and a phone are cleaned by one rule: accepted together and to the same text |
| AdminForms.GetOrCreate | rental_app/admin_forms.py:84-87 | the result holds a row of that name at the returned position; an existing row is reused, otherwise one is added at the end |
| AdminForms.GetOrCreateKeepsNamesUnique | rental_app/admin_forms.py:84-87 | get-or-create never duplicates a name, and asking again finds the same row without adding another |
| AdminForms.EnsureDefaultCarType | rental_app/admin_forms.py:62-70 | an empty CarType table gets the default type; a non-empty one is untouched; nothing else changes |
| AdminForms.CarFormClean | rental_app/admin_forms.py:72-96 | a selected type is kept; else a non-blank new name is looked up or created and selected; else the form is refused; only the CarType table changes, and its names stay unique |
| AdminForms.CleanActualEndDate | rental_app/admin_forms.py:126-135 | a return date before today is refused; today, a later date and an absent value pass unchanged |
| AdminForms.CompleteRentalFormClean | rental_app/admin_forms.py:109-135 | valid exactly when all fields are given, the return date is not past, the damage level is in 0..3 and late days >= 0; otherwise each field's own error is reported |
| AdminForms.ValidCompletionUsesFineTable | rental_app/admin_forms.py:113-119 | a valid form's damage level is a level of the fine table, so the fine fallback is never reached, and its late fine is 500 a day |

## Left out

- HTTP views, JSON endpoints, URL routing, admin registration, serializers, auth decorators and app configuration: these contain no business rules. The admin view's guard that a rental is not already completed is not a precondition of `RentalService.CompleteRental`, because the service does not check it.
- The guard in the admin view against deleting a car that has running rentals, for the same reason.
- The ORM, `transaction.atomic` and concurrent creations: the tables are sequences, and every check comes before any write.
- Floating point: `round` of the occupancy percentage, the average rental duration of the financial report, and `get_average_rental_cost` (a database `Avg`). The integer day count and the exact rate are modelled.
- Decimal quantisation to two places on save: money is an exact real.
- The clock: `date.today()`, `timezone.now()`, the current year and the first day of the month are parameters.
- Message texts and the bracket description texts: errors are datatype constructors.
- Image upload, `ClientRegistrationForm.save`, login and authentication.
- The fine strategy slot of `FineCalculator`: only the standard strategy exists, and it is the one used.
- `get_top_cars_by_revenue` and the `top_cars` field of the dashboard: the order of cars without revenue (NULL) depends on the database.
- `get_client_rentals`: it only orders by `created_at`, which the model does not carry.
- Rental and car `created_at` and `updated_at`, and the default `-created_at` ordering of the tables.
- The number of client profiles on the dashboard is a parameter; the client table is not modelled.
- Django's own field cleaning before `clean_*`: required checks and date parsing. A missing value is `None`, except in `AdminForms.CompleteRentalFormClean`, which models the required fields and the integer bounds.
- GetCarFinancialReport: its occupancy rate is the corrected 90-day rate (`CarService.OccupancyRate`, window from `today - 89`), not the rate the source computes over `today - 90` to `today` (`CarService.OccupancyRateAsWritten`); for a car whose counted rentals cover day `today - 90` the source reports 100/90 percentage points more per such rental (101.11 instead of 100.0 for a rental covering the whole window, 1.11 instead of 0 for one that ended on `today - 90`). The as-written rate is modelled by `CarService.CalculateOccupancyRateAsWritten`; see "## Findings".
- GetCarsOccupancyReport: each entry carries the same corrected rate, so the entries' rates, and with them the order of the report, can differ from the source's for cars with rentals covering day `today - 90`.
- `CarService.GetCarsOccupancyReport`: `sorted` is stable, but the model states only that the report is a permutation ordered by rate, not the relative order of equal rates.

## Findings

| source | as written | input that shows it | evidently intended | confidence | as-written member | corrected member |
|---|---|---|---|---|---|---|
| rental_app/services/car_service.py:120-141 | the window runs from `today - 90` to `today`, which is 91 days counted inclusively, but the rate divides by `total_days = 90` | one active car rental that started 90 or more days ago and is expected back today or later: 91 days are counted, so the rate is 101.11% | a 90-day window (`today - 89` to `today`), so that a car rented the whole window scores 100% | not executed | CarService.OccupancyAsWrittenExceedsFullTime | CarService.OccupancyRateAtMostFullTime |
