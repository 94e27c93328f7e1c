/** Concrete cases from the repository's tests, checked against the model. */
module Examples {
  import opened Wrappers
  import opened Enums
  import opened Models
  import opened Analyzer

  lemma ValidationCases()
    ensures NewRectangle(4.0, 0.0, 2.0, 4.0) == Failure(ValidationError(X, 4.0, 2.0))
    ensures NewRectangle(0.0, 4.0, 4.0, 2.0) == Failure(ValidationError(Y, 4.0, 2.0))
    ensures NewRectangle(0.0, 0.0, 0.0, 4.0).Failure?
    ensures NewRectangle(4.0, 4.0, 2.0, 2.0).error.axis == X
  {
  }

  lemma IntersectionCases()
    ensures Intersect(Bounds(0.0, 0.0, 4.0, 4.0), Bounds(6.0, 0.0, 10.0, 4.0))
         == IntersectionResult(IntersectionType.NONE, None)
    ensures Intersect(Bounds(0.0, 0.0, 4.0, 4.0), Bounds(4.0, 4.0, 8.0, 8.0))
         == IntersectionResult(IntersectionType.POINT, Some(PointShape(Point(4.0, 4.0))))
    ensures Intersect(Bounds(0.0, 0.0, 4.0, 4.0), Bounds(4.0, 0.0, 8.0, 4.0))
         == IntersectionResult(IntersectionType.LINE, Some(SegmentShape(LineSegment(Point(4.0, 0.0), Point(4.0, 4.0)))))
    ensures Intersect(Bounds(0.0, 0.0, 6.0, 6.0), Bounds(2.0, 1.0, 8.0, 5.0))
         == IntersectionResult(IntersectionType.AREA, Some(RectangleShape(Bounds(2.0, 1.0, 6.0, 5.0))))
  {
  }

  lemma ContainmentCases()
    ensures Containment(Bounds(2.0, 2.0, 8.0, 8.0), Bounds(0.0, 0.0, 10.0, 10.0)) == ContainmentType.A_IN_B
    ensures Containment(Bounds(0.0, 0.0, 20.0, 20.0), Bounds(5.0, 5.0, 6.0, 6.0)) == ContainmentType.B_IN_A
    ensures Containment(Bounds(0.0, 1.0, 4.0, 3.0), Bounds(0.0, 0.0, 5.0, 4.0)) == ContainmentType.NONE
  {
  }

  lemma AdjacencyCases()
    ensures Adjacency(Bounds(0.0, 0.0, 4.0, 4.0), Bounds(4.0, 0.0, 8.0, 4.0))
         == AdjacencyResult(AdjacencyType.PROPER, Some(LineSegment(Point(4.0, 0.0), Point(4.0, 4.0))))
    ensures Adjacency(Bounds(1.0, 0.0, 3.0, 4.0), Bounds(0.0, 4.0, 4.0, 8.0))
         == AdjacencyResult(AdjacencyType.SUB_LINE, Some(LineSegment(Point(1.0, 4.0), Point(3.0, 4.0))))
    ensures Adjacency(Bounds(0.0, 0.0, 4.0, 4.0), Bounds(4.0, 2.0, 8.0, 6.0))
         == AdjacencyResult(AdjacencyType.PARTIAL, Some(LineSegment(Point(4.0, 2.0), Point(4.0, 4.0))))
    ensures Adjacency(Bounds(0.0, 0.0, 4.0, 4.0), Bounds(4.0, 4.0, 8.0, 8.0))
         == AdjacencyResult(AdjacencyType.NONE, None)
  {
  }
}
