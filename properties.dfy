/** Properties relating the classifiers to each other and to argument order. */
module Properties {
  import opened Wrappers
  import opened Enums
  import opened Models
  import opened Analyzer

  /** NONE exactly when the closed ranges are apart on some axis. */
  lemma IntersectNoneIff(a: Rectangle, b: Rectangle)
    ensures Intersect(a, b).kind == IntersectionType.NONE <==>
      (a.x2 < b.x1 || b.x2 < a.x1 || a.y2 < b.y1 || b.y2 < a.y1)
  {
  }

  /** Swapping the arguments gives the same kind and the same witness. */
  lemma IntersectSymmetric(a: Rectangle, b: Rectangle)
    ensures Intersect(a, b) == Intersect(b, a)
  {
  }

  /** A rectangle meets itself in an AREA that is the rectangle itself. */
  lemma IntersectSelf(r: Rectangle)
    ensures Intersect(r, r) == IntersectionResult(IntersectionType.AREA, Some(RectangleShape(r)))
  {
  }

  /** When `outer` covers `inner` (shared sides allowed), the two meet in an AREA
      that is exactly `inner`, in either argument order. */
  lemma IntersectNested(outer: Rectangle, inner: Rectangle)
    requires outer.x1 <= inner.x1 && inner.x2 <= outer.x2 && outer.y1 <= inner.y1 && inner.y2 <= outer.y2
    ensures Intersect(outer, inner) == IntersectionResult(IntersectionType.AREA, Some(RectangleShape(inner)))
    ensures Intersect(inner, outer) == Intersect(outer, inner)
  {
  }

  /** Strict containment cannot hold in both directions. */
  lemma StrictlyInsideExclusive(a: Rectangle, b: Rectangle)
    ensures !(StrictlyInside(a, b) && StrictlyInside(b, a))
  {
    StrictlyInsideIff(a, b);
    StrictlyInsideIff(b, a);
  }

  function Swapped(c: ContainmentType): ContainmentType {
    match c
    case NONE => ContainmentType.NONE
    case A_IN_B => ContainmentType.B_IN_A
    case B_IN_A => ContainmentType.A_IN_B
  }

  /** Swapping the arguments exchanges A_IN_B and B_IN_A and keeps NONE. */
  lemma ContainmentSwap(a: Rectangle, b: Rectangle)
    ensures Containment(b, a) == Swapped(Containment(a, b))
    ensures Containment(a, b) == ContainmentType.A_IN_B <==> Containment(b, a) == ContainmentType.B_IN_A
  {
  }

  /** A side of one rectangle on a side line of the other (a shared edge, a shared
      corner, identical rectangles) rules out containment. */
  lemma ContainmentTouchingIsNone(a: Rectangle, b: Rectangle)
    requires || a.x1 == b.x1 || a.x1 == b.x2 || a.x2 == b.x1 || a.x2 == b.x2
             || a.y1 == b.y1 || a.y1 == b.y2 || a.y2 == b.y1 || a.y2 == b.y2
    ensures Containment(a, b) == ContainmentType.NONE
  {
  }

  /** A rectangle strictly inside another is their AREA intersection and not adjacent to it. */
  lemma ContainedMeetsInArea(a: Rectangle, b: Rectangle)
    requires Containment(a, b) == ContainmentType.A_IN_B
    ensures Intersect(a, b) == IntersectionResult(IntersectionType.AREA, Some(RectangleShape(a)))
    ensures Adjacency(a, b).kind == AdjacencyType.NONE
  {
  }

  /** The four side coincidences of `adjacency` are mutually exclusive once the
      sides also overlap with positive length, so the order they are tried in
      does not matter. */
  lemma AtMostOneSharedEdge(a: Rectangle, b: Rectangle)
    ensures var right := a.x2 == b.x1 && a.y1 < b.y2 && b.y1 < a.y2;
            var left := a.x1 == b.x2 && a.y1 < b.y2 && b.y1 < a.y2;
            var top := a.y2 == b.y1 && a.x1 < b.x2 && b.x1 < a.x2;
            var bottom := a.y1 == b.y2 && a.x1 < b.x2 && b.x1 < a.x2;
            (if right then 1 else 0) + (if left then 1 else 0)
              + (if top then 1 else 0) + (if bottom then 1 else 0) <= 1
  {
  }

  /** Swapping the arguments gives the same kind and the same segment. */
  lemma AdjacencySymmetric(a: Rectangle, b: Rectangle)
    ensures Adjacency(a, b) == Adjacency(b, a)
  {
  }

  /** Adjacency is exactly a LINE intersection, and the shared segment is the
      intersection's segment; POINT, AREA and NONE intersections are not adjacent. */
  lemma AdjacencyIsLineIntersection(a: Rectangle, b: Rectangle)
    ensures Adjacency(a, b).kind != AdjacencyType.NONE <==> Intersect(a, b).kind == IntersectionType.LINE
    ensures Adjacency(a, b).geometry.Some? ==>
      Intersect(a, b).geometry == Some(SegmentShape(Adjacency(a, b).geometry.value))
  {
  }
}
