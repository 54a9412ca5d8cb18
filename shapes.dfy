/** Rectangles and squares (Liskov-substitution example). In the source a
    `Square` is a subclass of `Rectangle` whose overridden `Width` and
    `Height` setters write both sides. Here one class carries the object's
    run-time type in `kind`, and each setter dispatches on it as the virtual
    property setters do. Dimensions are exact reals. */
module Shapes {

  /** The run-time type of a `Rectangle` object. */
  datatype Kind = RectangleType | SquareType

  /** The two sides of a shape. */
  datatype Sides = Sides(width: real, height: real)

  /** One assignment to a property: `shape.Width = v` or `shape.Height = v`. */
  datatype Assignment = WidthTo(value: real) | HeightTo(value: real)

  /** The sides after one assignment, as the setter of the given run-time
      type performs it: a rectangle's setter writes its own side, a
      square's writes both. */
  function Assign(kind: Kind, s: Sides, a: Assignment): Sides {
    match (kind, a)
    case (RectangleType, WidthTo(v)) => Sides(v, s.height)
    case (RectangleType, HeightTo(v)) => Sides(s.width, v)
    case (SquareType, _) => Sides(a.value, a.value)
  }

  /** The sides after a series of assignments, in order. */
  function Run(kind: Kind, s: Sides, ops: seq<Assignment>): Sides
    decreases |ops|
  {
    if ops == [] then s else Run(kind, Assign(kind, s, ops[0]), ops[1..])
  }

  class Rectangle {
    const kind: Kind
    var width: real
    var height: real

    /** The class invariant a square keeps: its two sides are equal. */
    ghost predicate Valid()
      reads this
    {
      kind == SquareType ==> width == height
    }

    function Current(): Sides
      reads this
    {
      Sides(width, height)
    }

    /** `new Rectangle(width, height)`: the fields start at 0.0 and the
        constructor assigns through the (here rectangle) setters. */
    constructor (width: real, height: real)
      ensures kind == RectangleType && Valid()
      ensures this.width == width && this.height == height
    {
      kind := RectangleType;
      this.width, this.height := 0.0, 0.0;
      new;
      SetWidth(width);
      SetHeight(height);
    }

    /** `new Square(sideLength)`: the base constructor runs with both sides
        equal to `sideLength`, and its assignments reach the square's
        setters. */
    constructor Square(sideLength: real)
      ensures kind == SquareType && Valid()
      ensures width == sideLength && height == sideLength
    {
      kind := SquareType;
      width, height := 0.0, 0.0;
      new;
      SetWidth(sideLength);
      SetHeight(sideLength);
    }

    /** The `Width` setter: a rectangle's changes the width only, a
        square's changes both sides. */
    method SetWidth(v: real)
      modifies this
      ensures Valid()
      ensures width == v
      ensures kind == RectangleType ==> height == old(height)
      ensures kind == SquareType ==> height == v
      ensures Current() == Assign(kind, old(Current()), WidthTo(v))
    {
      if kind == RectangleType {
        width := v;
      } else {
        height := v;
        width := height;
      }
    }

    /** The `Height` setter: a rectangle's changes the height only, a
        square's changes both sides. */
    method SetHeight(v: real)
      modifies this
      ensures Valid()
      ensures height == v
      ensures kind == RectangleType ==> width == old(width)
      ensures kind == SquareType ==> width == v
      ensures Current() == Assign(kind, old(Current()), HeightTo(v))
    {
      if kind == RectangleType {
        height := v;
      } else {
        height := v;
        width := height;
      }
    }

    /** The area of the current sides; for a square, the side squared. */
    function Area(): (area: real)
      reads this
      ensures area == width * height
      ensures Valid() && kind == SquareType ==> area == width * width
    {
      width * height
    }
  }

  /** `AreaCalculator.CalculateArea`: the shape's own area, whatever its
      run-time type. */
  function CalculateArea(shape: Rectangle): (area: real)
    reads shape
    ensures area == shape.width * shape.height
    ensures shape.Valid() && shape.kind == SquareType ==> area == shape.height * shape.height
  {
    shape.Area()
  }

  /** A square stays a square: its sides are equal after any series of
      assignments to either property. */
  lemma {:induction false} SquareStaysSquare(s: Sides, ops: seq<Assignment>)
    requires s.width == s.height
    ensures Run(SquareType, s, ops).width == Run(SquareType, s, ops).height
    decreases |ops|
  {
    if ops != [] {
      SquareStaysSquare(Assign(SquareType, s, ops[0]), ops[1..]);
    }
  }

  /** Only the last assignment to a square matters: both sides end up equal
      to the value it assigned. */
  lemma {:induction false} SquareTakesLastValue(s: Sides, ops: seq<Assignment>)
    requires ops != []
    ensures Run(SquareType, s, ops) == Sides(ops[|ops| - 1].value, ops[|ops| - 1].value)
    decreases |ops|
  {
    if |ops| > 1 {
      SquareTakesLastValue(Assign(SquareType, s, ops[0]), ops[1..]);
    }
  }

  /** A rectangle's sides are independent: assignments to the width alone
      never change the height, and assignments to the height alone never
      change the width. */
  lemma {:induction false} RectangleSidesIndependent(s: Sides, ops: seq<Assignment>)
    ensures (forall k :: 0 <= k < |ops| ==> ops[k].WidthTo?) ==> Run(RectangleType, s, ops).height == s.height
    ensures (forall k :: 0 <= k < |ops| ==> ops[k].HeightTo?) ==> Run(RectangleType, s, ops).width == s.width
    decreases |ops|
  {
    if ops != [] {
      RectangleSidesIndependent(Assign(RectangleType, s, ops[0]), ops[1..]);
    }
  }

  /** Where substitution breaks the caller's expectation: assigning width
      `w` then height `h` gives a rectangle of area `w * h`, but a square of
      area `h * h`. */
  lemma SubstitutionChangesArea(s: Sides, w: real, h: real)
    ensures var r := Run(RectangleType, s, [WidthTo(w), HeightTo(h)]); r.width * r.height == w * h
    ensures var q := Run(SquareType, s, [WidthTo(w), HeightTo(h)]); q.width * q.height == h * h
  {
    var ops := [WidthTo(w), HeightTo(h)];
    assert ops[1..] == [HeightTo(h)] && ops[1..][1..] == [];
    assert Run(RectangleType, s, ops) == Run(RectangleType, Sides(w, s.height), [HeightTo(h)]);
    assert Run(RectangleType, Sides(w, s.height), [HeightTo(h)]) == Sides(w, h);
    SquareTakesLastValue(s, ops);
  }

  /** A client that passes a `Rectangle` and a `Square` to `CalculateArea`
      after assigning width `w` and then height `h` to each. */
  method AssignThenMeasure(w: real, h: real) returns (rectangleArea: real, squareArea: real)
    ensures rectangleArea == w * h
    ensures squareArea == h * h
  {
    var rectangle := new Rectangle(1.0, 1.0);
    var square := new Rectangle.Square(1.0);
    rectangle.SetWidth(w);
    rectangle.SetHeight(h);
    square.SetWidth(w);
    square.SetHeight(h);
    rectangleArea := CalculateArea(rectangle);
    squareArea := CalculateArea(square);
  }
}
