/** A regular polygon: a Java `int` number of sides, all of one positive
    length (shapes/RegularPolygon.java). */
module RegularPolygons {
  import opened Outcomes
  import opened Objects
  import opened Int32
  import Decimal

  const SideLengthMessage := "The length of a side must be positive"
  const NumSidesMessage := "The number of sides in a regular polygon must be 3 or greater"

  /** The names `toString` uses for 5 to 20 sides, indexed by the number of sides minus 5. */
  const Names: seq<string> := [
    "pentagon", "hexagon", "heptagon", "octagon", "nonagon", "decagon", "hendecagon", "dodecagon",
    "triskaidecagon", "tetrakaidecagon", "pentadecagon", "hexadecagon", "heptadecagon", "octadecagon",
    "enneadecagon", "icosagon"]

  class RegularPolygon {
    var numSides: int32
    var sideLength: real

    /** What the constructors and setters establish. The setters keep it;
        `addSides` keeps the side length but may break the side count. */
    ghost predicate Valid()
      reads this
    {
      numSides >= 3 && sideLength > 0.0
    }

    /** `new RegularPolygon()`: the field initialisers' equilateral triangle of side 1.0. */
    constructor ()
      ensures Valid() && numSides == 3 && sideLength == 1.0
    {
      numSides := 3;
      sideLength := 1.0;
    }

    /** `new RegularPolygon(int num)`: `setNumSides(num)` on the default triangle. */
    static method WithSides(num: int32) returns (r: Result<RegularPolygon>)
      ensures r.Success? <==> num > 2
      ensures r.Success? ==> fresh(r.value) && r.value.Valid() && r.value.numSides == num && r.value.sideLength == 1.0
      ensures r.Failure? ==> r.message == NumSidesMessage
    {
      var p := new RegularPolygon();
      var status := p.SetNumSides(num);
      if status.IllegalArgument? {
        return Failure(status.message);
      }
      return Success(p);
    }

    /** `new RegularPolygon(double len)`: `setSideLength(len)` on the default triangle. */
    static method WithSideLength(len: real) returns (r: Result<RegularPolygon>)
      ensures r.Success? <==> len > 0.0
      ensures r.Success? ==> fresh(r.value) && r.value.Valid() && r.value.numSides == 3 && r.value.sideLength == len
      ensures r.Failure? ==> r.message == SideLengthMessage
    {
      var p := new RegularPolygon();
      var status := p.SetSideLength(len);
      if status.IllegalArgument? {
        return Failure(status.message);
      }
      return Success(p);
    }

    /** `new RegularPolygon(num, len)`: `setNumSides(num)` then `setSideLength(len)`;
        the first setter that throws decides the message. */
    static method WithSidesAndLength(num: int32, len: real) returns (r: Result<RegularPolygon>)
      ensures r.Success? <==> num > 2 && len > 0.0
      ensures r.Success? ==> fresh(r.value) && r.value.Valid() && r.value.numSides == num && r.value.sideLength == len
      ensures r.Failure? ==> r.message == if num > 2 then SideLengthMessage else NumSidesMessage
    {
      var p := new RegularPolygon();
      var status := p.SetNumSides(num);
      if status.Done? {
        status := p.SetSideLength(len);
      }
      if status.IllegalArgument? {
        return Failure(status.message);
      }
      return Success(p);
    }

    /** `setSideLength`: accepts exactly the positive values; the side count never changes. */
    method SetSideLength(len: real) returns (status: Status)
      modifies this
      ensures status == if len > 0.0 then Done else IllegalArgument(SideLengthMessage)
      ensures sideLength == if len > 0.0 then len else old(sideLength)
      ensures numSides == old(numSides)
      ensures old(Valid()) ==> Valid()
    {
      if len > 0.0 {
        sideLength := len;
        status := Done;
      } else {
        status := IllegalArgument(SideLengthMessage);
      }
    }

    /** `setNumSides`: accepts exactly the counts above 2 (so 3 is accepted);
        the side length never changes. */
    method SetNumSides(num: int32) returns (status: Status)
      modifies this
      ensures status == if num > 2 then Done else IllegalArgument(NumSidesMessage)
      ensures numSides == if num > 2 then num else old(numSides)
      ensures sideLength == old(sideLength)
      ensures old(Valid()) ==> Valid()
    {
      if num > 2 {
        numSides := num;
        status := Done;
      } else {
        status := IllegalArgument(NumSidesMessage);
      }
    }

    /** `getNumSides`: at least 3 on every valid polygon. */
    function NumSides(): (n: int32)
      reads this
      ensures Valid() ==> n >= 3
    {
      numSides
    }

    /** `getSideLength`: positive on every valid polygon. */
    function SideLength(): (s: real)
      reads this
      ensures Valid() ==> s > 0.0
    {
      sideLength
    }

    /** `getPerimeter`: the side length times the side count, so at least three
        sides' worth on a valid polygon; once `addSides` has driven the count to
        zero or below, it is no longer positive. */
    function Perimeter(): (p: real)
      reads this
      ensures Valid() ==> p >= 3.0 * sideLength > 0.0
      ensures sideLength > 0.0 ==> (p > 0.0 <==> numSides > 0)
    {
      sideLength * numSides as real
    }

    /** `addSides()`: `numSides++` with no check, so the count wraps at the
        largest `int`; the side length is untouched. */
    method AddSide()
      modifies this
      ensures numSides == Wrap(old(numSides) + 1)
      ensures sideLength == old(sideLength)
      ensures old(numSides) < Max ==> numSides == old(numSides) + 1
      ensures old(Valid()) ==> (Valid() <==> old(numSides) < Max)
    {
      numSides := Wrap(numSides + 1);
    }

    /** `addSides(numExtra)`: `numSides += numExtra` with no check; the polygon
        stays valid exactly when the new count is still at least 3. */
    method AddSides(numExtra: int32)
      modifies this
      ensures numSides == Wrap(old(numSides) + numExtra)
      ensures sideLength == old(sideLength)
      ensures Min <= old(numSides) + numExtra <= Max ==> numSides == old(numSides) + numExtra
      ensures old(Valid()) ==> (Valid() <==> 3 - old(numSides) <= numExtra <= Max - old(numSides))
    {
      numSides := Wrap(numSides + numExtra);
    }

    /** The name part of `toString`, built the way the Java code builds it;
        None where `names[numSides - 5]` throws. */
    method Name() returns (name: Option<string>)
      ensures name == ShapeName(numSides)
      ensures Valid() ==> name.Some?
    {
      var s := "";
      if numSides == 3 {
        s := s + "equilateral triangle";
        assert s == "equilateral triangle";
      } else if numSides == 4 {
        s := s + "square";
        assert s == "square";
      } else {
        s := s + "regular ";
        assert s == "regular ";
        if numSides <= 20 {
          if numSides - 5 < 0 {
            return None;
          }
          s := s + Names[numSides - 5];
        } else {
          s := s + "polygon of " + Decimal.DecimalString(numSides) + " sides";
          assert s == "regular polygon of " + Decimal.DecimalString(numSides) + " sides";
        }
      }
      return Some(s);
    }

    /** This polygon as the argument of another object's `equals`. */
    function AsObject(): Obj
      reads this
    {
      PolygonValue(numSides, sideLength)
    }

    /** `equals` on this polygon. */
    function Equals(other: Obj): bool
      reads this
    {
      PolygonEquals(numSides, sideLength, other)
    }
  }

  /** Adding `k` sides to a polygon of `n >= 3` sides leaves at least 3 exactly
      when the sum neither falls below 3 nor overflows a Java `int`. */
  lemma AddSidesKeepsCount(n: int32, k: int32)
    requires n >= 3
    ensures Wrap(n + k) >= 3 <==> 3 - n <= k <= Max - n
  {
  }

  /** The name `toString` gives a polygon with `n` sides, or None where
      looking up the name table throws. */
  function ShapeName(n: int): (name: Option<string>)
    ensures name.Some? <==> n >= 3
  {
    if n == 3 then Some("equilateral triangle")
    else if n == 4 then Some("square")
    else if n <= 20 then
      (if n - 5 < 0 then None else Some("regular " + Names[n - 5]))
    else Some("regular polygon of " + Decimal.DecimalString(n) + " sides")
  }

  /** The first position of `x` in `table`, if any. */
  function IndexOf(table: seq<string>, x: string): (i: Option<nat>)
    ensures i.Some? ==> i.value < |table| && table[i.value] == x
    ensures i.Some? ==> forall j :: 0 <= j < i.value ==> table[j] != x
    ensures i.None? ==> x !in table
  {
    if |table| == 0 then None
    else if table[0] == x then Some(0)
    else match IndexOf(table[1..], x)
      case None => None
      case Some(k) => Some(k + 1)
  }

  /** Reads the number of sides back from a name that `ShapeName` gives. */
  function SidesOfName(name: string): Option<int> {
    if name == "equilateral triangle" then Some(3)
    else if name == "square" then Some(4)
    else if |name| < 8 || name[..8] != "regular " then None
    else
      var rest := name[8..];
      match IndexOf(Names, rest)
      case Some(i) => Some(i + 5)
      case None =>
        if |rest| < 18 || rest[..11] != "polygon of " || rest[|rest| - 6..] != " sides" then None
        else match Decimal.ParseDecimal(rest[11..|rest| - 6])
          case None => None
          case Some(v) => Some(v)
  }

  lemma NamesDistinct()
    ensures |Names| == 16
    ensures forall i, j :: 0 <= i < j < |Names| ==> Names[i] != Names[j]
    ensures forall i :: 0 <= i < |Names| ==> 7 <= |Names[i]| <= 15
  {
  }

  /** The names of 5 to 20 sides read back through the table. */
  lemma TableNameRoundTrip(n: int)
    requires 5 <= n <= 20
    ensures SidesOfName("regular " + Names[n - 5]) == Some(n)
  {
    NamesDistinct();
    var name := "regular " + Names[n - 5];
    assert name[0] == 'r' && |name| >= 15;
    assert name[..8] == "regular ";
    assert name[8..] == Names[n - 5];
  }

  /** The names of more than 20 sides read back through their decimal count. */
  lemma LargeNameRoundTrip(n: int)
    requires n > 20
    ensures SidesOfName("regular polygon of " + Decimal.DecimalString(n) + " sides") == Some(n)
  {
    NamesDistinct();
    var digits := Decimal.DecimalString(n);
    var rest := "polygon of " + digits + " sides";
    var name := "regular polygon of " + digits + " sides";
    assert name == "regular " + rest;
    assert name[0] == 'r' && |name| >= 26;
    assert name[..8] == "regular ";
    assert name[8..] == rest;
    assert rest !in Names;
    assert rest[..11] == "polygon of ";
    assert rest[|rest| - 6..] == " sides";
    assert rest[11..|rest| - 6] == digits;
    Decimal.ParseDecimalString(n);
  }

  /** Every valid side count has a name, and the name gives the count back. */
  lemma SidesOfShapeName(n: int)
    requires n >= 3
    ensures SidesOfName(ShapeName(n).value) == Some(n)
  {
    if 5 <= n <= 20 {
      TableNameRoundTrip(n);
    } else if n > 20 {
      LargeNameRoundTrip(n);
    }
  }

  /** Distinct valid side counts get distinct names. */
  lemma ShapeNameInjective(m: int, n: int)
    requires m >= 3 && n >= 3
    requires ShapeName(m) == ShapeName(n)
    ensures m == n
  {
    SidesOfShapeName(m);
    SidesOfShapeName(n);
  }

  /** `RegularPolygon.equals` for a polygon with the given count and side: a
      4-gon matches a rectangle whose sides both lie within the tolerance of
      its own; otherwise only a polygon with the same count and a side within
      the tolerance matches. */
  predicate PolygonEquals(numSides: int, sideLength: real, other: Obj) {
    if other.Null? then false
    else if numSides == 4 && other.RectangleValue? && Close(other.width, sideLength) && Close(other.length, sideLength) then true
    else if !other.PolygonValue? then false
    else numSides == other.numSides && Close(sideLength, other.sideLength)
  }

  /** A rectangle is equal exactly when this is a 4-gon and both sides of the
      rectangle lie within the tolerance of its side. */
  lemma PolygonEqualsRectangle(numSides: int, sideLength: real, length: real, width: real)
    ensures PolygonEquals(numSides, sideLength, RectangleValue(length, width))
        <==> numSides == 4 && -Tolerance < length - sideLength < Tolerance && -Tolerance < width - sideLength < Tolerance
  {
  }

  /** Another polygon is equal exactly when the counts agree and the sides lie within the tolerance. */
  lemma PolygonEqualsPolygon(n1: int, s1: real, n2: int, s2: real)
    ensures PolygonEquals(n1, s1, PolygonValue(n2, s2)) <==> n1 == n2 && -Tolerance < s1 - s2 < Tolerance
  {
  }

  /** Null, circles and other objects are never equal. */
  lemma PolygonEqualsRejectsOthers(numSides: int, sideLength: real, other: Obj)
    requires other.Null? || other.CircleValue? || other.Other?
    ensures !PolygonEquals(numSides, sideLength, other)
  {
  }

  lemma PolygonEqualsReflexive(numSides: int, sideLength: real)
    ensures PolygonEquals(numSides, sideLength, PolygonValue(numSides, sideLength))
  {
  }

  lemma PolygonEqualsSymmetric(n1: int, s1: real, n2: int, s2: real)
    ensures PolygonEquals(n1, s1, PolygonValue(n2, s2)) <==> PolygonEquals(n2, s2, PolygonValue(n1, s1))
  {
  }
}
