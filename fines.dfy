/** Fines assessed when a car is returned (rental_app/patterns/fine_calculator.py): a
    damage fine as a fraction of the deposit, a flat fine per late day, their total, and
    the part of the deposit that goes back to the client. */
module Fines {
  import opened Entities

  /** Fraction of the deposit charged for each damage level. */
  const DamageMultipliers: map<int, real> := map[0 := 0.0, 1 := 0.1, 2 := 0.3, 3 := 0.5]

  const LateFinePerDay: real := 500.0

  /** The damage fine: the deposit times the level's fraction. A level outside the table
      is treated as level 0, so it is charged nothing and raises no error. */
  function DamageFine(rental: Rental, damageLevel: int): (f: real)
    ensures damageLevel !in DamageMultipliers ==> f == 0.0
    ensures rental.deposit >= 0.0 ==> 0.0 <= f <= rental.deposit / 2.0
    ensures rental.deposit > 0.0 ==> (f > 0.0 <==> damageLevel in {1, 2, 3})
  {
    var level := if damageLevel in DamageMultipliers then damageLevel else 0;
    rental.deposit * DamageMultipliers[level]
  }

  /** The late fine: a flat amount per late day; nothing when no day is late. */
  function LateFine(rental: Rental, lateDays: int): (f: real)
    ensures f >= 0.0
    ensures f > 0.0 <==> lateDays > 0
    ensures f == LateFinePerDay * (if lateDays > 0 then lateDays else 0) as real
  {
    if lateDays <= 0 then 0.0 else LateFinePerDay * (lateDays as real)
  }

  /** Both fines together. */
  function TotalFines(rental: Rental, damageLevel: int, lateDays: int): (t: real)
    ensures rental.deposit >= 0.0 ==> t >= 0.0
    ensures t == DamageFine(rental, damageLevel) + LateFine(rental, lateDays)
  {
    var damageFine := DamageFine(rental, damageLevel);
    var lateFine := LateFine(rental, lateDays);
    damageFine + lateFine
  }

  /** What is left of the deposit after the fines, never below zero. */
  function Refund(rental: Rental, totalFines: real): (r: real)
    ensures r >= 0.0
    ensures totalFines <= rental.deposit ==> r == rental.deposit - totalFines
    ensures totalFines >= rental.deposit ==> r == 0.0
  {
    var refund := rental.deposit - totalFines;
    if refund >= 0.0 then refund else 0.0
  }

  /** The refund settles the deposit: the part of the deposit that is kept never exceeds
      the fines and never exceeds the deposit, and either the fines are covered in full
      or nothing is refunded (a shortfall is not charged here). */
  lemma RefundSettlesDeposit(rental: Rental, totalFines: real)
    requires rental.deposit >= 0.0 && totalFines >= 0.0
    ensures var kept := rental.deposit - Refund(rental, totalFines);
            && 0.0 <= kept <= rental.deposit
            && kept <= totalFines
            && (kept == totalFines || Refund(rental, totalFines) == 0.0)
  {
  }

  /** The worked example: a deposit of 3000, damage level 2 and 3 late days give fines
      of 900 + 1500 = 2400 and a refund of 600. */
  lemma CompletionExample(rental: Rental)
    requires rental.deposit == 3000.0
    ensures DamageFine(rental, 2) == 900.0 && LateFine(rental, 3) == 1500.0
    ensures TotalFines(rental, 2, 3) == 2400.0
    ensures Refund(rental, TotalFines(rental, 2, 3)) == 600.0
  {
  }
}
