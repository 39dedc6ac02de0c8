/** The argument of the shapes' `equals(Object)` methods: a Java reference,
    seen through the getters of the class it belongs to. */
module Objects {

  /** A `null` reference, an instance of one of the three shape classes
      (given by the values its getters return), or any other object. */
  datatype Obj =
    | Null
    | CircleValue(radius: real)
    | RectangleValue(length: real, width: real)
    | PolygonValue(numSides: int, sideLength: real)
    | Other

  /** The tolerance 0.00001 that every `equals` uses for lengths. */
  const Tolerance: real := 0.00001

  function Abs(x: real): real {
    if x < 0.0 then -x else x
  }

  /** `Math.abs(a - b) < 0.00001` */
  predicate Close(a: real, b: real) {
    Abs(a - b) < Tolerance
  }
}
