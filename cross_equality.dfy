/** How `Rectangle.equals` and `RegularPolygon.equals` treat each other's
    objects: a square and a 4-gon of the same side recognise each other, but
    the rectangle side demands an exact match where the polygon side allows
    the tolerance, so the two methods are not each other's mirror. */
module CrossEquality {
  import opened Objects
  import opened Rectangles
  import opened RegularPolygons

  /** A square and a 4-gon of the same side are equal in both directions. */
  lemma SquareAndFourGonMatch(side: real)
    ensures RectangleEquals(side, side, PolygonValue(4, side))
    ensures PolygonEquals(4, side, RectangleValue(side, side))
  {
  }

  /** Whenever a rectangle finds a polygon equal, the polygon finds the
      rectangle equal too. */
  lemma RectangleMatchIsMutual(length: real, width: real, numSides: int, sideLength: real)
    requires RectangleEquals(length, width, PolygonValue(numSides, sideLength))
    ensures PolygonEquals(numSides, sideLength, RectangleValue(length, width))
  {
  }

  /** The converse fails: a 4-gon of side 5 finds a 5.0000001-square equal,
      while that square does not find the 4-gon equal. */
  lemma ToleranceAsymmetry()
    ensures PolygonEquals(4, 5.0, RectangleValue(5.0000001, 5.0000001))
    ensures !RectangleEquals(5.0000001, 5.0000001, PolygonValue(4, 5.0))
  {
  }

  /** A rectangle that is not a square never equals a polygon, however close
      its sides are to the polygon's. */
  lemma NonSquareNeverEqualsPolygon(length: real, width: real, other: Obj)
    requires length != width && other.PolygonValue?
    ensures !RectangleEquals(length, width, other)
  {
  }

  /** A rectangle and a polygon that the rectangle finds equal have the same perimeter. */
  lemma RectangleMatchSamePerimeter(r: Rectangle, p: RegularPolygon)
    requires r.Equals(p.AsObject())
    ensures r.Perimeter() == p.Perimeter()
  {
  }

  /** A rectangle that a polygon finds equal has a perimeter within four
      tolerances of the polygon's. */
  lemma PolygonMatchPerimeterClose(p: RegularPolygon, r: Rectangle)
    requires p.Equals(r.AsObject())
    ensures Abs(r.Perimeter() - p.Perimeter()) < 4.0 * Tolerance
  {
    PolygonEqualsRectangle(p.numSides, p.sideLength, r.length, r.width);
    assert p.Perimeter() == 4.0 * p.sideLength;
    assert r.Perimeter() - p.Perimeter() == 2.0 * (r.length - p.sideLength) + 2.0 * (r.width - p.sideLength);
  }
}
