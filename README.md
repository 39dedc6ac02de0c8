# Shapes: Circle, Rectangle and RegularPolygon in Dafny

This project models the three geometric classes of the `shapes` package:
`Circle`, `Rectangle` and `RegularPolygon`. Each keeps its dimensions in
fields. Validating setters guard the fields: a bad value makes the setter
throw `IllegalArgumentException` and leaves the object as it was. The
constructors call those setters, so a bad argument means no object is made.
`RegularPolygon.addSides` is the one mutator that does not validate.

Equality is tolerance-based (`|a - b| < 0.00001`). It has one cross-type rule:
a square `Rectangle` and a 4-sided `RegularPolygon` can be equal. The
`Rectangle` side of that rule wants an exact match. The `RegularPolygon` side
accepts the tolerance. The model keeps this asymmetry and proves it
(`CrossEquality.ToleranceAsymmetry`).

How the Java maps onto Dafny:

- Each class is a Dafny `class` with the same fields and a `Valid()` invariant.
  Setters are methods that return a `Status`: `Done`, or `IllegalArgument`
  with the Java exception's message. Their postconditions give the whole new
  state, including "unchanged on failure".
- The default constructors are Dafny constructors. The Java constructors that
  take arguments can throw, so each becomes a static method that returns a
  `Result` (the fresh object, or the exception's message). It builds the
  default object and calls the setters in the Java order.
- Dafny has no overloading, so names differ from the Java:
  - `RegularPolygon(int)` is `WithSides`, `RegularPolygon(double)` is
    `WithSideLength`, and `RegularPolygon(int, double)` is `WithSidesAndLength`.
  - `Rectangle(double)` is `Square` and `Rectangle(double, double)` is
    `WithSides`.
  - `addSides()` is `AddSide` and `addSides(int)` is `AddSides`.
- `double` is modelled as `real`, so comparing with the tolerance is exact.
- `int` is modelled as the subset type `Int32.int32`. `addSides` adds with
  Java's 32-bit wrap-around (`Int32.Wrap`).
- The `Object` argument of `equals` is the datatype `Objects.Obj`: `Null`, one
  of the three shapes given by its getters' values, or `Other`. Each class's
  `equals` is a predicate over it (`CircleEquals`, `RectangleEquals`,
  `PolygonEquals`). Each class's `Equals` function applies that predicate to
  its own fields.
- Of `RegularPolygon.toString`, the model covers the name part.
  - `ShapeName` is the specification and `RegularPolygon.Name` builds the
    name with `+=` the way the Java does.
  - With fewer than 3 sides, which only `addSides` can reach, `names[numSides - 5]`
    throws. The model gives `None` there.
  - Its partner `SidesOfName` reads the side count back from a name. The
    round-trip lemma `SidesOfShapeName` shows that different valid counts get
    different names.
  - `Integer.toString` for counts above 20 is `Decimal.DecimalString`. Its
    inverse is `Decimal.ParseDecimal`, and round trips are proved both ways.

The class comment of `RegularPolygon` says "greater than 3". The code
(`num > 2`) accepts 3, and the model follows the code.

## Model

| member | source | states |
|---|---|---|
| Int32.Wrap | shapes/RegularPolygon.java:117-127 | Java `int` addition: the result is congruent to the true sum modulo 2^32, equals it when it fits, and is the sum minus 2^32 when it overflows past the largest `int` |
| Decimal.DecimalString | shapes/RegularPolygon.java:147 | `Integer.toString` of a non-negative count: a non-empty string of digits, one digit exactly below 10, no leading zero |
| Decimal.ParseDecimal | shapes/RegularPolygon.java:147 | the inverse reading of a count: defined exactly on non-empty strings of decimal digits |
| Decimal.ParseDecimalString | shapes/RegularPolygon.java:147 | parsing the rendering of any count gives the count back |
| Decimal.DecimalStringOfParse | shapes/RegularPolygon.java:147 | rendering the value of any digit string without a leading zero gives the string back |
| Circles.Circle.constructor | shapes/Circle.java:7-12 | the default circle has radius 1.0 and is valid |
| Circles.Circle.WithRadius | shapes/Circle.java:18-20 | construction succeeds exactly for a positive radius and stores it; otherwise it fails with the radius message |
| Circles.Circle.SetRadius | shapes/Circle.java:26-31 | a positive radius is stored; otherwise the setter fails with the radius message and the radius is unchanged; validity is kept |
| Circles.Circle.Radius | shapes/Circle.java:37-39 | `getRadius` is positive on every valid circle |
| Circles.CircleEqualsExactly | shapes/Circle.java:60-67 | `equals` holds exactly for a circle whose radius lies strictly within 0.00001; null and other objects give false |
| Circles.CircleEqualsReflexive | shapes/Circle.java:66 | every circle equals a circle of its own radius |
| Circles.CircleEqualsSymmetric | shapes/Circle.java:66 | circle equality gives the same answer in both directions |
| Rectangles.Rectangle.constructor | shapes/Rectangle.java:7-13 | the default rectangle is 1.0 by 1.0 and valid |
| Rectangles.Rectangle.Square | shapes/Rectangle.java:19-22 | `Rectangle(len)` succeeds exactly for positive `len` and gives the square len by len; otherwise it fails with the length message |
| Rectangles.Rectangle.WithSides | shapes/Rectangle.java:29-32 | `Rectangle(len, wid)` succeeds exactly when both are positive and stores them; a bad length is reported before a bad width |
| Rectangles.Rectangle.SetLength | shapes/Rectangle.java:38-43 | a positive length is stored and the width kept; otherwise it fails with the length message and nothing changes |
| Rectangles.Rectangle.SetWidth | shapes/Rectangle.java:49-54 | a positive width is stored and the length kept; otherwise it fails with the width message and nothing changes |
| Rectangles.Rectangle.Length | shapes/Rectangle.java:60-62 | `getLength` is positive on every valid rectangle |
| Rectangles.Rectangle.Width | shapes/Rectangle.java:68-70 | `getWidth` is positive on every valid rectangle |
| Rectangles.Rectangle.Area | shapes/Rectangle.java:76-78 | the area is positive, and dividing it by either side gives the other side |
| Rectangles.Rectangle.Perimeter | shapes/Rectangle.java:84-86 | the perimeter exceeds twice each side, and is four times the side of a square |
| Rectangles.RectangleEqualsPolygon | shapes/Rectangle.java:95-102 | a polygon is equal exactly when the rectangle is a square and the polygon a 4-gon of exactly the same side |
| Rectangles.RectangleEqualsRectangle | shapes/Rectangle.java:101-104 | a rectangle is equal exactly when both lengths and both widths lie strictly within 0.00001 |
| Rectangles.RectangleEqualsRejectsOthers | shapes/Rectangle.java:91-105 | null, circles and other objects are never equal |
| Rectangles.RectangleEqualsReflexive | shapes/Rectangle.java:104 | every rectangle equals a rectangle with its own sides |
| Rectangles.RectangleEqualsSymmetric | shapes/Rectangle.java:104 | rectangle-to-rectangle equality gives the same answer in both directions |
| RegularPolygons.RegularPolygon.constructor | shapes/RegularPolygon.java:7-13 | the default polygon is the valid triangle with 3 sides of length 1.0 |
| RegularPolygons.RegularPolygon.WithSides | shapes/RegularPolygon.java:19-21 | `RegularPolygon(int num)` succeeds exactly for `num > 2` and gives (num, 1.0); otherwise it fails with the side-count message |
| RegularPolygons.RegularPolygon.WithSideLength | shapes/RegularPolygon.java:27-29 | `RegularPolygon(double len)` succeeds exactly for positive `len` and gives (3, len); otherwise it fails with the side-length message |
| RegularPolygons.RegularPolygon.WithSidesAndLength | shapes/RegularPolygon.java:36-39 | succeeds exactly for `num > 2` and positive `len` and gives (num, len); a bad count is reported before a bad length |
| RegularPolygons.RegularPolygon.SetSideLength | shapes/RegularPolygon.java:45-50 | a positive length is stored and the count kept; otherwise it fails with the side-length message and nothing changes |
| RegularPolygons.RegularPolygon.SetNumSides | shapes/RegularPolygon.java:56-61 | exactly the counts above 2 are stored and the length kept; otherwise it fails with the side-count message and nothing changes |
| RegularPolygons.RegularPolygon.NumSides | shapes/RegularPolygon.java:67-69 | `getNumSides` is at least 3 on every valid polygon |
| RegularPolygons.RegularPolygon.SideLength | shapes/RegularPolygon.java:75-77 | `getSideLength` is positive on every valid polygon |
| RegularPolygons.RegularPolygon.Perimeter | shapes/RegularPolygon.java:93-95 | the perimeter is at least three side lengths and positive on a valid polygon; with a positive side it is positive exactly while the count is positive |
| RegularPolygons.RegularPolygon.AddSide | shapes/RegularPolygon.java:117-119 | `addSides()` adds one side with 32-bit wrap-around and keeps the side length; a valid polygon stays valid exactly when the count was below the largest `int` |
| RegularPolygons.RegularPolygon.AddSides | shapes/RegularPolygon.java:125-127 | `addSides(k)` adds `k` with 32-bit wrap-around and no check, keeps the side length, and keeps a valid polygon valid exactly when `3 - n <= k <= MAX_INT - n` |
| RegularPolygons.AddSidesKeepsCount | shapes/RegularPolygon.java:125-127 | from `n >= 3` sides, the wrapped count `n + k` is at least 3 exactly when `3 - n <= k <= MAX_INT - n` |
| RegularPolygons.RegularPolygon.Name | shapes/RegularPolygon.java:132-148 | the name that `toString` builds step by step is `ShapeName` of the count, and it exists on every valid polygon |
| RegularPolygons.ShapeName | shapes/RegularPolygon.java:134-148 | a name exists exactly for counts of at least 3; below that, the table lookup throws |
| RegularPolygons.NamesDistinct | shapes/RegularPolygon.java:142-143 | the name table has exactly 16 entries, all different, each 7 to 15 characters long |
| RegularPolygons.TableNameRoundTrip | shapes/RegularPolygon.java:140-144 | every name "regular " + `names[n - 5]` for 5 to 20 sides reads back as `n` |
| RegularPolygons.LargeNameRoundTrip | shapes/RegularPolygon.java:146-147 | every name "regular polygon of n sides" for more than 20 sides reads back as `n` |
| RegularPolygons.SidesOfShapeName | shapes/RegularPolygon.java:134-148 | the name of every count of at least 3 reads back as that count |
| RegularPolygons.ShapeNameInjective | shapes/RegularPolygon.java:134-148 | two counts of at least 3 with the same name are the same count |
| RegularPolygons.PolygonEqualsRectangle | shapes/RegularPolygon.java:103-109 | a rectangle is equal exactly when the polygon is a 4-gon and both rectangle sides lie strictly within 0.00001 of its side |
| RegularPolygons.PolygonEqualsPolygon | shapes/RegularPolygon.java:108-111 | a polygon is equal exactly when the counts agree and the sides lie strictly within 0.00001 |
| RegularPolygons.PolygonEqualsRejectsOthers | shapes/RegularPolygon.java:100-109 | null, circles and other objects are never equal |
| RegularPolygons.PolygonEqualsReflexive | shapes/RegularPolygon.java:111 | every polygon equals a polygon with its own count and side |
| RegularPolygons.PolygonEqualsSymmetric | shapes/RegularPolygon.java:111 | polygon-to-polygon equality gives the same answer in both directions |
| CrossEquality.SquareAndFourGonMatch | shapes/Rectangle.java:95-99 | a square and a 4-gon of the same side are equal in both directions |
| CrossEquality.RectangleMatchIsMutual | shapes/Rectangle.java:95-99 | whenever a rectangle finds a polygon equal, the polygon finds the rectangle equal |
| CrossEquality.ToleranceAsymmetry | shapes/RegularPolygon.java:103-107 | a 4-gon of side 5 equals the 5.0000001 square, but that square does not equal the 4-gon |
| CrossEquality.NonSquareNeverEqualsPolygon | shapes/Rectangle.java:95-102 | a rectangle that is not a square never equals any polygon |
| CrossEquality.RectangleMatchSamePerimeter | shapes/Rectangle.java:95-99 | a rectangle and a polygon that the rectangle finds equal have the same perimeter |
| CrossEquality.PolygonMatchPerimeterClose | shapes/RegularPolygon.java:103-107 | a rectangle that a polygon finds equal has a perimeter within four tolerances of the polygon's |

## Left out

- `RegularPolygon.getArea` (shapes/RegularPolygon.java:83-87) is not modelled. It uses `Math.tan` and `Math.PI`, which are transcendental floating-point functions.
- `Circle.getArea` and `Circle.getCircumference` (shapes/Circle.java:45-55) are not modelled, because they depend on `Math.PI`.
- `Circle.toString` and `Rectangle.toString` are not modelled. The side-length rendering in `RegularPolygon.toString` is not modelled either. That rendering is `(double)(Math.round(x*100))/100` converted to text: IEEE-754 rounding plus Java's double-to-string formatting. Only the polygon's name part is modelled.
- IEEE-754 `double` semantics are not modelled. Lengths are reals, so `0.00001` and the tolerance comparisons are exact, and a product such as `getArea` does not round.
- Java's `instanceof`, casts and exception objects are replaced by the closed datatype `Obj`, the `Status` and `Result` datatypes, and the exception message. An exception escaping a constructor is a `Failure` result.
- `equals` is modelled on the values the argument's getters return. Identity and aliasing play no part in any of the three `equals` methods.
- `hashCode` is not overridden in the source. The Java `equals`/`hashCode` contract is therefore not modelled.
- The classes are not internally thread-safe, and the model is sequential.
