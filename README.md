# Rectangle relationships, modelled in Dafny

This project models the `rectangles` library: immutable geometry values (`Point`,
`LineSegment`, a validated `Rectangle`) and the three classifiers of
`RectangleAnalyzer` that relate two axis-aligned rectangles:

- `intersect` overlaps the closed x and y ranges and reports NONE, POINT, LINE or AREA
  with the overlap as witness;
- `containment` reports strict containment A_IN_B, B_IN_A or NONE;
- `adjacency` looks for a pair of coinciding opposite sides with a positive-length
  overlap and classifies it as PROPER, SUB_LINE or PARTIAL with the shared segment.

Files: `wrappers.dfy` (Option, Result), `enums.dfy` (the three tag enumerations and
their string values), `models.dfy` (geometry values, rectangle construction and
validation, the result records), `analyzer.dfy` (the three classifiers and the span
helper), `properties.dfy` (symmetry, exclusivity and cross-classifier facts),
`examples.dfy` (cases from the repository's tests).

Design:
- Coordinates are `real`; the analyzer only takes `max`/`min` and compares.
- `Bounds` holds four coordinates; `Rectangle` is the subset of well-ordered bounds
  (`x1 < x2`, `y1 < y2`), so every analyzer input is a constructed rectangle.
  `NewRectangle` is the constructor with its validation and returns a `Result`.
  The AREA branch of `Intersect` builds its witness through `NewRectangle(...).value`,
  so the verifier shows that this construction never fails.
- Result records keep the source's shape: a tag plus an optional geometry.
  `WellFormed` states that the geometry is absent exactly for NONE and that its shape
  matches the tag. The classifiers prove it.
- Each classifier is tied to a geometric meaning that does not depend on how it is
  computed:
  - the intersection witness covers exactly the points the two closed rectangles share;
  - containment is "every point of the closed inner rectangle lies in the open outer one";
  - adjacency means "a pair of opposite sides lies on one line and overlaps with positive length".

## Model

| member | source | states |
|---|---|---|
| `Enums.IntersectionType.Value` | rectangles/enums.py:6-11 | each of the four intersection tags has a non-empty lower-case string value |
| `Enums.IntersectionTypeFromValue` | rectangles/enums.py:6-11 | looking up a string gives a tag whose value is that string, and fails only for strings that are not one of "none", "point", "line", "area" |
| `Enums.IntersectionTypeValueRoundTrip` | rectangles/enums.py:6-11 | a tag's value looks up that tag again, so distinct tags have distinct values |
| `Enums.ContainmentType.Value` | rectangles/enums.py:14-18 | each of the three containment tags has a non-empty lower-case string value |
| `Enums.ContainmentTypeFromValue` | rectangles/enums.py:14-18 | lookup by value returns a tag carrying that value, and fails only outside "none", "a_in_b", "b_in_a" |
| `Enums.ContainmentTypeValueRoundTrip` | rectangles/enums.py:14-18 | the containment tag-to-value map is invertible, hence injective |
| `Enums.AdjacencyType.Value` | rectangles/enums.py:21-26 | each of the four adjacency tags has a non-empty lower-case string value |
| `Enums.AdjacencyTypeFromValue` | rectangles/enums.py:21-26 | lookup by value returns a tag carrying that value, and fails only outside "none", "proper", "sub_line", "partial" |
| `Enums.AdjacencyTypeValueRoundTrip` | rectangles/enums.py:21-26 | the adjacency tag-to-value map is invertible, hence injective |
| `Models.NewRectangle` | rectangles/models.py:35-44 | construction succeeds iff `x1 < x2` and `y1 < y2`, keeping the four coordinates. Otherwise it fails naming the x pair when `x1 >= x2`, even if y is also bad. It names the y pair only when x is in order and `y1 >= y2` |
| `Analyzer.Intersect` | rectangles/analyzer.py:25-53 | the result is well formed. The witness covers exactly the points common to both closed rectangles. NONE therefore means no common point, POINT a single one, LINE a positive-length axis-aligned segment, AREA a valid rectangle |
| `Analyzer.StrictlyInsideIff` | rectangles/analyzer.py:70-73 | "every point of the closed inner rectangle is in the open outer one" is equivalent to the four strict side inequalities the source tests |
| `Analyzer.Containment` | rectangles/analyzer.py:70-74 | A_IN_B iff a lies strictly inside b, and B_IN_A iff b lies strictly inside a |
| `Analyzer.Classify` | rectangles/analyzer.py:96-115 | no result iff the spans do not overlap as open intervals. Otherwise: PROPER iff the spans are equal, SUB_LINE iff they differ and one lies within the other, PARTIAL iff neither lies within the other. The segment lies on the shared line, runs upward or rightward, and covers exactly the positions inside both spans |
| `Analyzer.Adjacency` | rectangles/analyzer.py:117-137 | the result is well formed (segment present iff not NONE, positive length). It is not NONE iff two opposite sides lie on one line and overlap with positive length. It is PROPER iff the rectangles share one whole side. It is SUB_LINE iff, on the coinciding line, one side's span lies within the other's but the sides differ. It is PARTIAL iff the sides overlap but neither lies within the other |
| `Properties.IntersectNoneIff` | rectangles/analyzer.py:25-31 | NONE iff the closed ranges are apart on the x axis or on the y axis |
| `Properties.IntersectSymmetric` | rectangles/analyzer.py:25-53 | `intersect(a, b) == intersect(b, a)`: same kind, same witness |
| `Properties.IntersectSelf` | rectangles/analyzer.py:50-53 | a rectangle intersected with itself is AREA with the rectangle itself as witness |
| `Properties.IntersectNested` | rectangles/analyzer.py:50-53 | when one rectangle covers the other, shared sides allowed, they meet in AREA with the inner rectangle as witness, in both argument orders |
| `Properties.StrictlyInsideExclusive` | rectangles/analyzer.py:70-73 | the A_IN_B and B_IN_A conditions never hold together |
| `Properties.ContainmentSwap` | rectangles/analyzer.py:70-74 | swapping the arguments exchanges A_IN_B and B_IN_A and keeps NONE |
| `Properties.ContainmentTouchingIsNone` | rectangles/analyzer.py:70-74 | any side of one rectangle on a side line of the other gives NONE. This covers a shared edge, a shared corner and identical rectangles |
| `Properties.ContainedMeetsInArea` | rectangles/analyzer.py:70-71 | when a is strictly inside b, they intersect in AREA with a as witness and are not adjacent |
| `Properties.AtMostOneSharedEdge` | rectangles/analyzer.py:117-135 | at most one of the four side coincidences that adjacency tries can come with a positive-length overlap, so the order of the checks does not matter |
| `Properties.AdjacencySymmetric` | rectangles/analyzer.py:96-137 | `adjacency(a, b) == adjacency(b, a)`: same kind, same segment |
| `Properties.AdjacencyIsLineIntersection` | rectangles/analyzer.py:36-48 | adjacency is not NONE iff intersect is LINE, and then both report the same segment. Corner touches (POINT), overlaps (AREA) and gaps (NONE) are never adjacent |
| `Examples.ValidationCases` | tests/test_intersection.py:123-131 | `Rectangle(4,0,2,4)` fails on x, `Rectangle(0,4,4,2)` fails on y, zero width fails, and x is reported when both axes are bad |
| `Examples.IntersectionCases` | tests/test_intersection.py:17-102 | separate rectangles give NONE, a corner touch gives POINT (4,4), a shared edge gives LINE (4,0)-(4,4), an overlap gives AREA (2,1,6,5) |
| `Examples.ContainmentCases` | tests/test_containment.py:11-69 | a centred inner rectangle gives A_IN_B, the reverse gives B_IN_A, and a shared left edge gives NONE |
| `Examples.AdjacencyCases` | tests/test_adjacency.py:19-152 | the PROPER, SUB_LINE and PARTIAL cases give their segments, and a corner touch gives NONE |

## Left out

- The command-line front end (`rectangles/cli.py`: argument parsing, printing, exit codes, `_fmt_geometry`) and the demo script `main.py`: presentation and I/O only.
- `rectangles/__init__.py`: re-exports only.
- The exact text of the validation error: the model keeps the failing axis and the offending pair of values, not the formatted message.
- Python floating point: coordinates are exact reals. The core only compares and takes `max`/`min`, which round nothing.
- Immutability and value equality of the frozen dataclasses are given by Dafny datatypes, so no member states them.
- The types of the result records' geometry fields are given by the datatypes. `AdjacencyResult.geometry` is `Option<LineSegment>`. `IntersectionResult.geometry` is an optional `Geometry`, one of point, segment or rectangle.
- `Analyzer.Classify` requires both spans to be well ordered. Its only callers pass the sides of constructed rectangles.
