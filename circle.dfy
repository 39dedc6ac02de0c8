/** A circle with a positive radius (shapes/Circle.java). */
module Circles {
  import opened Outcomes
  import opened Objects

  const RadiusMessage := "The radius of a circle must be positive"

  class Circle {
    var radius: real

    /** Every successful construction and every setter call keeps the radius positive. */
    ghost predicate Valid()
      reads this
    {
      radius > 0.0
    }

    /** `new Circle()`: the field initialiser's radius 1.0. */
    constructor ()
      ensures Valid() && radius == 1.0
    {
      radius := 1.0;
    }

    /** `new Circle(rad)`: start from the default, then `setRadius(rad)`;
        if that throws, no circle is created. */
    static method WithRadius(rad: real) returns (r: Result<Circle>)
      ensures r.Success? <==> rad > 0.0
      ensures r.Success? ==> fresh(r.value) && r.value.Valid() && r.value.radius == rad
      ensures r.Failure? ==> r.message == RadiusMessage
    {
      var c := new Circle();
      var status := c.SetRadius(rad);
      if status.IllegalArgument? {
        return Failure(status.message);
      }
      return Success(c);
    }

    /** `setRadius`: accepts exactly the positive values; otherwise throws and
        leaves the radius as it was. */
    method SetRadius(rad: real) returns (status: Status)
      modifies this
      ensures status == if rad > 0.0 then Done else IllegalArgument(RadiusMessage)
      ensures radius == if rad > 0.0 then rad else old(radius)
      ensures old(Valid()) ==> Valid()
      ensures status.Done? ==> Valid()
    {
      if rad > 0.0 {
        radius := rad;
        status := Done;
      } else {
        status := IllegalArgument(RadiusMessage);
      }
    }

    /** `getRadius`: the radius, positive on every valid circle. */
    function Radius(): (r: real)
      reads this
      ensures Valid() ==> r > 0.0
    {
      radius
    }

    /** This circle as the argument of another object's `equals`. */
    function AsObject(): Obj
      reads this
    {
      CircleValue(radius)
    }

    /** `equals` on this circle. */
    function Equals(other: Obj): bool
      reads this
    {
      CircleEquals(radius, other)
    }
  }

  /** `Circle.equals` for a circle of the given radius. */
  predicate CircleEquals(radius: real, other: Obj) {
    if other.Null? then false
    else if !other.CircleValue? then false
    else Close(radius, other.radius)
  }

  /** Only a circle whose radius lies within the tolerance is equal; null and
      other objects never are. */
  lemma CircleEqualsExactly(radius: real, other: Obj)
    ensures CircleEquals(radius, other) <==> other.CircleValue? && -Tolerance < radius - other.radius < Tolerance
  {
  }

  lemma CircleEqualsReflexive(radius: real)
    ensures CircleEquals(radius, CircleValue(radius))
  {
  }

  lemma CircleEqualsSymmetric(r1: real, r2: real)
    ensures CircleEquals(r1, CircleValue(r2)) <==> CircleEquals(r2, CircleValue(r1))
  {
  }
}
