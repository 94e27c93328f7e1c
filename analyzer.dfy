/** The three relationship classifiers of rectangles/analyzer.py
    (`RectangleAnalyzer.intersect`, `.containment`, `.adjacency`). */
module Analyzer {
  import opened Wrappers
  import opened Enums
  import opened Models

  /** `intersect`: overlap the closed x and y ranges and classify the overlap by its
      dimensions. The witness is exactly the set of points the two closed rectangles
      have in common, so NONE means they share no point at all. */
  function Intersect(a: Rectangle, b: Rectangle): (r: IntersectionResult)
    ensures r.WellFormed()
    ensures forall p :: a.Covers(p) && b.Covers(p) <==> r.Covers(p)
  {
    var ox1 := Max(a.x1, b.x1);
    var ox2 := Min(a.x2, b.x2);
    var oy1 := Max(a.y1, b.y1);
    var oy2 := Min(a.y2, b.y2);
    if ox1 > ox2 || oy1 > oy2 then
      IntersectionResult(IntersectionType.NONE, None)
    else if ox1 == ox2 && oy1 == oy2 then
      IntersectionResult(IntersectionType.POINT, Some(PointShape(Point(ox1, oy1))))
    else if ox1 == ox2 then
      IntersectionResult(IntersectionType.LINE, Some(SegmentShape(LineSegment(Point(ox1, oy1), Point(ox1, oy2)))))
    else if oy1 == oy2 then
      IntersectionResult(IntersectionType.LINE, Some(SegmentShape(LineSegment(Point(ox1, oy1), Point(ox2, oy1)))))
    else
      IntersectionResult(IntersectionType.AREA, Some(RectangleShape(NewRectangle(ox1, oy1, ox2, oy2).value)))
  }

  /** Every point of the closed `inner` lies in the open interior of `outer`. */
  ghost predicate StrictlyInside(inner: Rectangle, outer: Rectangle) {
    forall p :: inner.Covers(p) ==> outer.Surrounds(p)
  }

  /** Strict containment is the four strict inequalities between the sides. */
  lemma StrictlyInsideIff(inner: Rectangle, outer: Rectangle)
    ensures StrictlyInside(inner, outer) <==>
      (outer.x1 < inner.x1 && inner.x2 < outer.x2 && outer.y1 < inner.y1 && inner.y2 < outer.y2)
  {
    if StrictlyInside(inner, outer) {
      assert inner.Covers(Point(inner.x1, inner.y1));
      assert inner.Covers(Point(inner.x2, inner.y2));
    }
  }

  /** `containment`: A_IN_B when a lies strictly inside b, B_IN_A when b lies strictly
      inside a (the two cannot both hold), NONE otherwise. */
  function Containment(a: Rectangle, b: Rectangle): (r: ContainmentType)
    ensures r == ContainmentType.A_IN_B <==> StrictlyInside(a, b)
    ensures r == ContainmentType.B_IN_A <==> StrictlyInside(b, a)
  {
    StrictlyInsideIff(a, b);
    StrictlyInsideIff(b, a);
    if b.x1 < a.x1 && a.x2 < b.x2 && b.y1 < a.y1 && a.y2 < b.y2 then
      ContainmentType.A_IN_B
    else if a.x1 < b.x1 && b.x2 < a.x2 && a.y1 < b.y1 && b.y2 < a.y2 then
      ContainmentType.B_IN_A
    else
      ContainmentType.NONE
  }

  /** A closed one-dimensional range (lo, hi), as the source's two-element tuples. */
  datatype Span = Span(lo: real, hi: real) {
    predicate Contains(v: real) {
      lo <= v <= hi
    }

    predicate Within(other: Span) {
      other.lo <= lo && hi <= other.hi
    }
  }

  /** The point at coordinate `along` on the line x == shared (vertical) or y == shared. */
  function OnLine(shared: real, vertical: bool, along: real): Point {
    if vertical then Point(shared, along) else Point(along, shared)
  }

  /** `_classify`: the shared boundary line carries a segment of positive length
      exactly when the spans overlap as open intervals. The segment is the part of the
      line inside both spans, from its lower to its upper end; PROPER means the spans
      are equal, SUB_LINE that one lies inside the other, PARTIAL that neither does. */
  function Classify(shared: real, vertical: bool, spanA: Span, spanB: Span): (r: Option<AdjacencyResult>)
    requires spanA.lo < spanA.hi && spanB.lo < spanB.hi
    ensures r.None? <==> !(spanA.lo < spanB.hi && spanB.lo < spanA.hi)
    ensures r.Some? ==> r.value.WellFormed() && r.value.kind != AdjacencyType.NONE
    ensures r.Some? ==> (r.value.kind == AdjacencyType.PROPER <==> spanA == spanB)
    ensures r.Some? ==> (r.value.kind == AdjacencyType.SUB_LINE <==>
                           spanA != spanB && (spanA.Within(spanB) || spanB.Within(spanA)))
    ensures r.Some? ==> (r.value.kind == AdjacencyType.PARTIAL <==>
                           !spanA.Within(spanB) && !spanB.Within(spanA))
    ensures r.Some? ==> var s := r.value.geometry.value;
              && (vertical ==> s.start.x == shared && s.start.y < s.end.y)
              && (!vertical ==> s.start.y == shared && s.start.x < s.end.x)
              && forall t :: s.Covers(OnLine(shared, vertical, t)) <==> spanA.Contains(t) && spanB.Contains(t)
  {
    var lo := Max(spanA.lo, spanB.lo);
    var hi := Min(spanA.hi, spanB.hi);
    if hi <= lo then
      None
    else
      var aFull := lo == spanA.lo && hi == spanA.hi;
      var bFull := lo == spanB.lo && hi == spanB.hi;
      var kind :=
        if aFull && bFull then AdjacencyType.PROPER
        else if aFull || bFull then AdjacencyType.SUB_LINE
        else AdjacencyType.PARTIAL;
      var segment :=
        if vertical then LineSegment(Point(shared, lo), Point(shared, hi))
        else LineSegment(Point(lo, shared), Point(hi, shared));
      Some(AdjacencyResult(kind, Some(segment)))
  }

  /** The two rectangles have a pair of opposite sides on one line and those sides
      overlap with positive length. */
  predicate SharesEdge(a: Rectangle, b: Rectangle) {
    || ((a.x2 == b.x1 || a.x1 == b.x2) && a.y1 < b.y2 && b.y1 < a.y2)
    || ((a.y2 == b.y1 || a.y1 == b.y2) && a.x1 < b.x2 && b.x1 < a.x2)
  }

  /** The rectangles share exactly one whole side. */
  predicate SharesWholeSide(a: Rectangle, b: Rectangle) {
    || ((a.x2 == b.x1 || a.x1 == b.x2) && a.y1 == b.y1 && a.y2 == b.y2)
    || ((a.y2 == b.y1 || a.y1 == b.y2) && a.x1 == b.x1 && a.x2 == b.x2)
  }

  /** On the line where two opposite sides coincide, one side's span lies within the other's. */
  predicate SharedSidesNested(a: Rectangle, b: Rectangle) {
    var ya, yb := Span(a.y1, a.y2), Span(b.y1, b.y2);
    var xa, xb := Span(a.x1, a.x2), Span(b.x1, b.x2);
    || ((a.x2 == b.x1 || a.x1 == b.x2) && (ya.Within(yb) || yb.Within(ya)))
    || ((a.y2 == b.y1 || a.y1 == b.y2) && (xa.Within(xb) || xb.Within(xa)))
  }

  /** `adjacency`: try a's right side on b's left, a's left on b's right, a's top on
      b's bottom, a's bottom on b's top, and return the first classified span. */
  function Adjacency(a: Rectangle, b: Rectangle): (r: AdjacencyResult)
    ensures r.WellFormed()
    ensures r.kind != AdjacencyType.NONE <==> SharesEdge(a, b)
    ensures r.kind == AdjacencyType.PROPER <==> SharesWholeSide(a, b)
    ensures r.kind == AdjacencyType.SUB_LINE <==> SharedSidesNested(a, b) && !SharesWholeSide(a, b)
    ensures r.kind == AdjacencyType.PARTIAL <==> SharesEdge(a, b) && !SharedSidesNested(a, b)
  {
    var ys := (Span(a.y1, a.y2), Span(b.y1, b.y2));
    var xs := (Span(a.x1, a.x2), Span(b.x1, b.x2));
    var right := if a.x2 == b.x1 then Classify(a.x2, true, ys.0, ys.1) else None;
    if right.Some? then right.value else
    var left := if a.x1 == b.x2 then Classify(a.x1, true, ys.0, ys.1) else None;
    if left.Some? then left.value else
    var top := if a.y2 == b.y1 then Classify(a.y2, false, xs.0, xs.1) else None;
    if top.Some? then top.value else
    var bottom := if a.y1 == b.y2 then Classify(a.y1, false, xs.0, xs.1) else None;
    if bottom.Some? then bottom.value
    else AdjacencyResult(AdjacencyType.NONE, None)
  }
}
