/** A rectangle with a positive length and width (shapes/Rectangle.java). */
module Rectangles {
  import opened Outcomes
  import opened Objects

  const LengthMessage := "The length of a rectangle must be positive"
  const WidthMessage := "The width of a rectangle must be positive"

  class Rectangle {
    var length: real
    var width: real

    /** Every successful construction and every setter call keeps both sides positive. */
    ghost predicate Valid()
      reads this
    {
      length > 0.0 && width > 0.0
    }

    /** `new Rectangle()`: the field initialisers' 1.0 by 1.0. */
    constructor ()
      ensures Valid() && length == 1.0 && width == 1.0
    {
      length := 1.0;
      width := 1.0;
    }

    /** `new Rectangle(len)`: the square with side `len`, built by `setLength(len)`
        then `setWidth(len)`; if either throws, no rectangle is created. */
    static method Square(len: real) returns (r: Result<Rectangle>)
      ensures r.Success? <==> len > 0.0
      ensures r.Success? ==> fresh(r.value) && r.value.Valid() && r.value.length == len && r.value.width == len
      ensures r.Failure? ==> r.message == LengthMessage
    {
      var rect := new Rectangle();
      var status := rect.SetLength(len);
      if status.Done? {
        status := rect.SetWidth(len);
      }
      if status.IllegalArgument? {
        return Failure(status.message);
      }
      return Success(rect);
    }

    /** `new Rectangle(len, wid)`: `setLength(len)` then `setWidth(wid)`; the
        first setter that throws decides the message. */
    static method WithSides(len: real, wid: real) returns (r: Result<Rectangle>)
      ensures r.Success? <==> len > 0.0 && wid > 0.0
      ensures r.Success? ==> fresh(r.value) && r.value.Valid() && r.value.length == len && r.value.width == wid
      ensures r.Failure? ==> r.message == if len > 0.0 then WidthMessage else LengthMessage
    {
      var rect := new Rectangle();
      var status := rect.SetLength(len);
      if status.Done? {
        status := rect.SetWidth(wid);
      }
      if status.IllegalArgument? {
        return Failure(status.message);
      }
      return Success(rect);
    }

    /** `setLength`: accepts exactly the positive values; the width never changes. */
    method SetLength(len: real) returns (status: Status)
      modifies this
      ensures status == if len > 0.0 then Done else IllegalArgument(LengthMessage)
      ensures length == if len > 0.0 then len else old(length)
      ensures width == old(width)
      ensures old(Valid()) ==> Valid()
    {
      if len > 0.0 {
        length := len;
        status := Done;
      } else {
        status := IllegalArgument(LengthMessage);
      }
    }

    /** `setWidth`: accepts exactly the positive values; the length never changes. */
    method SetWidth(wid: real) returns (status: Status)
      modifies this
      ensures status == if wid > 0.0 then Done else IllegalArgument(WidthMessage)
      ensures width == if wid > 0.0 then wid else old(width)
      ensures length == old(length)
      ensures old(Valid()) ==> Valid()
    {
      if wid > 0.0 {
        width := wid;
        status := Done;
      } else {
        status := IllegalArgument(WidthMessage);
      }
    }

    /** `getLength`: positive on every valid rectangle. */
    function Length(): (l: real)
      reads this
      ensures Valid() ==> l > 0.0
    {
      length
    }

    /** `getWidth`: positive on every valid rectangle. */
    function Width(): (w: real)
      reads this
      ensures Valid() ==> w > 0.0
    {
      width
    }

    /** `getArea`: positive on a valid rectangle; the length times the width,
        so that dividing it by one side gives the other. */
    function Area(): (a: real)
      reads this
      ensures Valid() ==> a > 0.0 && a / length == width && a / width == length
    {
      length * width
    }

    /** `getPerimeter`: on a valid rectangle it exceeds twice each side, and it
        is four times the side of a square. */
    function Perimeter(): (p: real)
      reads this
      ensures Valid() ==> p > 2.0 * length && p > 2.0 * width
      ensures length == width ==> p == 4.0 * length
    {
      2.0 * (length + width)
    }

    /** This rectangle as the argument of another object's `equals`. */
    function AsObject(): Obj
      reads this
    {
      RectangleValue(length, width)
    }

    /** `equals` on this rectangle. */
    function Equals(other: Obj): bool
      reads this
    {
      RectangleEquals(length, width, other)
    }
  }

  /** `Rectangle.equals` for a rectangle of the given sides: a square matches
      a 4-sided polygon of exactly its side; otherwise only a rectangle whose
      sides both lie within the tolerance matches. */
  predicate RectangleEquals(length: real, width: real, other: Obj) {
    if other.Null? then false
    else if length == width && other.PolygonValue? && other.numSides == 4 && other.sideLength == length then true
    else if !other.RectangleValue? then false
    else Close(length, other.length) && Close(width, other.width)
  }

  /** A polygon is equal exactly when this rectangle is a square and the
      polygon a 4-gon of the very same side; tolerance plays no part. */
  lemma RectangleEqualsPolygon(length: real, width: real, numSides: int, sideLength: real)
    ensures RectangleEquals(length, width, PolygonValue(numSides, sideLength))
        <==> length == width && numSides == 4 && sideLength == length
  {
  }

  /** Another rectangle is equal exactly when both sides lie within the tolerance. */
  lemma RectangleEqualsRectangle(l1: real, w1: real, l2: real, w2: real)
    ensures RectangleEquals(l1, w1, RectangleValue(l2, w2))
        <==> -Tolerance < l1 - l2 < Tolerance && -Tolerance < w1 - w2 < Tolerance
  {
  }

  /** Null, circles and other objects are never equal. */
  lemma RectangleEqualsRejectsOthers(length: real, width: real, other: Obj)
    requires other.Null? || other.CircleValue? || other.Other?
    ensures !RectangleEquals(length, width, other)
  {
  }

  lemma RectangleEqualsReflexive(length: real, width: real)
    ensures RectangleEquals(length, width, RectangleValue(length, width))
  {
  }

  lemma RectangleEqualsSymmetric(l1: real, w1: real, l2: real, w2: real)
    ensures RectangleEquals(l1, w1, RectangleValue(l2, w2)) <==> RectangleEquals(l2, w2, RectangleValue(l1, w1))
  {
  }
}
