/** The database tables the rule engine reads and writes, held in memory. A row's
    primary key is its position in its table. */
module Store {
  import opened Entities

  class Db {
    var cars: seq<Car>
    /** CarType rows, by name. */
    var carTypes: seq<string>
    var rentals: seq<Rental>
    var fines: seq<Fine>
    var payments: seq<Payment>

    /** What the operations of the engine keep true of the tables: keys match positions
        and every reference (a car's type, a rental's car, a fine's or payment's rental) points
        at an existing row; cars respect their declared bounds;
        every rental holds a positive deposit; fines exist only for completed rentals and
        are never negative; every payment is positive; CarType names are unique. */
    ghost predicate Valid()
      reads this
    {
      && (forall i :: 0 <= i < |cars| ==>
            cars[i].id == i && cars[i].carType < |carTypes| && CarFieldsValid(cars[i]))
      && (forall i :: 0 <= i < |rentals| ==>
            rentals[i].id == i && rentals[i].car < |cars| && rentals[i].deposit > 0.0)
      && (forall f :: f in fines ==>
            f.rental < |rentals| && rentals[f.rental].status == Completed && f.amount >= 0.0)
      && (forall p :: p in payments ==> p.rental < |rentals| && p.amount > 0.0)
      && (forall i, j :: 0 <= i < j < |carTypes| ==> carTypes[i] != carTypes[j])
    }

    constructor ()
      ensures Valid()
      ensures cars == [] && carTypes == [] && rentals == [] && fines == [] && payments == []
    {
      cars, carTypes, rentals, fines, payments := [], [], [], [], [];
    }
  }
}
