/** The immutable geometry primitives and result records of rectangles/models.py.
    Frozen dataclasses become datatypes: immutable, compared by value. Coordinates
    are reals. */
module Models {
  import opened Wrappers
  import opened Enums

  function Min(x: real, y: real): (m: real)
    ensures m <= x && m <= y && (m == x || m == y)
  {
    if x <= y then x else y
  }

  function Max(x: real, y: real): (m: real)
    ensures m >= x && m >= y && (m == x || m == y)
  {
    if x >= y then x else y
  }

  /** `v` lies in the closed range between `u` and `w`, whichever comes first. */
  predicate Between(v: real, u: real, w: real) {
    Min(u, w) <= v <= Max(u, w)
  }

  datatype Point = Point(x: real, y: real)

  datatype LineSegment = LineSegment(start: Point, end: Point) {
    /** Constant x or constant y, with the start strictly below or left of the end. */
    predicate AxisAligned() {
      || (start.x == end.x && start.y < end.y)
      || (start.y == end.y && start.x < end.x)
    }

    /** The points of the segment, for the horizontal and vertical segments this
        library produces (any other segment covers nothing here). */
    predicate Covers(p: Point) {
      || (start.x == end.x && p.x == start.x && Between(p.y, start.y, end.y))
      || (start.y == end.y && p.y == start.y && Between(p.x, start.x, end.x))
    }
  }

  /** The four coordinates a rectangle is built from, before validation. */
  datatype Bounds = Bounds(x1: real, y1: real, x2: real, y2: real) {
    predicate WellOrdered() {
      x1 < x2 && y1 < y2
    }

    /** `p` is in the closed box (boundary included). */
    predicate Covers(p: Point) {
      x1 <= p.x <= x2 && y1 <= p.y <= y2
    }

    /** `p` is in the open box (boundary excluded). */
    predicate Surrounds(p: Point) {
      x1 < p.x < x2 && y1 < p.y < y2
    }
  }

  /** A constructed `Rectangle`: bottom-left (x1, y1), top-right (x2, y2). */
  type Rectangle = b: Bounds | b.WellOrdered() witness Bounds(0.0, 0.0, 1.0, 1.0)

  datatype Axis = X | Y

  /** The `ValueError` of `__post_init__`: the axis whose pair is out of order,
      with the offending pair (x1, x2) or (y1, y2). */
  datatype ValidationError = ValidationError(axis: Axis, first: real, second: real)

  /** `Rectangle(x1, y1, x2, y2)`: succeeds exactly for well-ordered coordinates;
      the x pair is checked before the y pair. */
  function NewRectangle(x1: real, y1: real, x2: real, y2: real): (r: Result<Rectangle, ValidationError>)
    ensures r.Success? <==> x1 < x2 && y1 < y2
    ensures r.Success? ==> r.value == Bounds(x1, y1, x2, y2)
    ensures x1 >= x2 ==> r == Failure(ValidationError(X, x1, x2))
    ensures x1 < x2 && y1 >= y2 ==> r == Failure(ValidationError(Y, y1, y2))
  {
    if x1 >= x2 then Failure(ValidationError(X, x1, x2))
    else if y1 >= y2 then Failure(ValidationError(Y, y1, y2))
    else Success(Bounds(x1, y1, x2, y2))
  }

  /** The witness geometry an intersection can carry. */
  datatype Geometry =
    | PointShape(point: Point)
    | SegmentShape(segment: LineSegment)
    | RectangleShape(rect: Rectangle)
  {
    predicate Covers(p: Point) {
      match this
      case PointShape(q) => p == q
      case SegmentShape(s) => s.Covers(p)
      case RectangleShape(r) => r.Covers(p)
    }
  }

  datatype IntersectionResult = IntersectionResult(kind: IntersectionType, geometry: Option<Geometry>) {
    /** Geometry is absent exactly for NONE, and otherwise its shape matches the tag;
        a LINE witness is a positive-length axis-aligned segment. */
    predicate WellFormed() {
      match kind
      case NONE => geometry.None?
      case POINT => geometry.Some? && geometry.value.PointShape?
      case LINE => geometry.Some? && geometry.value.SegmentShape? && geometry.value.segment.AxisAligned()
      case AREA => geometry.Some? && geometry.value.RectangleShape?
    }

    predicate Covers(p: Point) {
      geometry.Some? && geometry.value.Covers(p)
    }
  }

  datatype AdjacencyResult = AdjacencyResult(kind: AdjacencyType, geometry: Option<LineSegment>) {
    /** The shared segment is present exactly when the tag is not NONE, and it has positive length. */
    predicate WellFormed() {
      && (kind == AdjacencyType.NONE <==> geometry.None?)
      && (geometry.Some? ==> geometry.value.AxisAligned())
    }
  }
}
