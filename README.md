# Shape classifier of the video shape detector

This project is a Dafny model of the shape classifier in `main.cpp`, with proofs about it. For each frame, the program finds
contours and simplifies each one to a polygon (`approxPolyDP`). It then
decides whether that polygon is a triangle, a square or a circle, and
draws the matching label and outline on the frame. The model covers three parts of `main.cpp`:

- `getCosAlKashi` (module `Geometry`). This is the cosine of the angle at
  apex C between the rays towards A and B, by the law of cosines. It is kept exact: a value
  `num / sqrt(den2)` with integer `num` and `den2`, or `NaN` when an edge at the apex has length zero. The band test
  `-0.1 < cos < 0.1` becomes the integer test `100·num² < den2`.
- The decision block of lines 98-125 (module `ShapeClassifier`), as
  written. The gate is `contourArea > 5000` together with `isContourConvex`. After the gate:
  - 3 vertices give TRIANGLE at `curves[0]`;
  - 4 vertices give CARRE at `curves[0]` when the four cosines `cos1..cos4` pass, with the arguments in the source's order;
  - otherwise the polygon is compared with the area of its enclosing circle through the
    chained comparison `0.95·π·r² <= area <= 1.05·π·r²`, which C++ evaluates as
    `(0.95·π·r² <= area) <= 1.05·π·r²`.
- The contour loop of lines 92-127 (module `ContourLoop`). This is a method that goes through
  the outlines of one frame in order and collects one annotation for each
  labelled outline. The annotation holds the contour index passed to `drawContours` and the label.

Module `CorrectedClassifier` holds the decision block as its comments
describe it. The comment at main.cpp:104 asks for all four angles to be
right angles. The comment at main.cpp:116 asks for the area to be close to that of the
enclosing circle, which the constants 0.95 and 1.05 make a ±5% band. The
triangle case (comment at main.cpp:100) is unchanged. The module shows
each difference between the two versions on a concrete outline (see "## Findings").

Points are `cv::Point`, which has integer coordinates. `contourArea` is the
shoelace area, kept as twice the area so that it stays an integer. `isContourConvex` is the strict
test: every turn has the same non-zero sign. The enclosing circle is an
input, given as a centre and a squared radius.

Where the intended behaviour and the code differ, the model follows the
code:

- The rectangle test's fourth cosine repeats the second, so the apex `curves[0]` is never tested.
- The circle test is the chained comparison.
- An outline the gate rejects and one that fails its shape test both get `NoLabel`, because main.cpp:98-125 draws nothing for either.

## Model

| member | source | states |
|---|---|---|
| Geometry.TwiceArea | main.cpp:98 | twice what contourArea reports (ShapeClassifier.Area, the `double area` of main.cpp:120, is half of it): the absolute value of the shoelace sum TwiceSignedArea over every edge, the closing edge included; zero for fewer than three vertices |
| Geometry.IsConvex | main.cpp:98 | isContourConvex: the outline is non-empty and its turns (cross product of the edge arriving at a vertex and the edge leaving it) are all positive or all negative; a zero turn makes it not convex |
| Geometry.InBand | main.cpp:110-111 | `cos < 0.1 && cos > -0.1` on the exact cosine: a defined cosine with 100·num² < den2; NaN never passes |
| Geometry.NearlyPerpendicular | main.cpp:110-111 | the band test in integer form: both edges at the apex are non-zero and 100·dot² < \|CA\|²·\|CB\|² |
| Geometry.CosAlKashi | main.cpp:17-23 | getCosAlKashi is defined exactly when neither A nor B coincides with the apex C; its squared denominator is then positive |
| Geometry.LawOfCosines | main.cpp:18-22 | the value is 2·(CA·CB) over 2·\|CA\|·\|CB\|: the numerator is twice the dot product of the two edges at the apex, the squared denominator four times the product of their squared lengths |
| Geometry.DenotesUnique | main.cpp:22 | a defined cosine denotes at most one real (v²·den2 = num² with v of the sign of num), so "the real the cosine denotes" is well defined |
| Geometry.CosAlKashiBounded | main.cpp:17-23 | any real the cosine denotes (see DenotesUnique) lies in [-1, 1] |
| Geometry.CosAlKashiSymmetric | main.cpp:17-23 | swapping the first two points leaves the cosine unchanged |
| Geometry.InBandExact | main.cpp:110-111 | the exact band test holds iff the real cosine lies strictly inside (-0.1, 0.1) |
| Geometry.InBandIffDot | main.cpp:110-111 | the band test on getCosAlKashi(A, B, C) holds iff both edges at C are non-zero and 100·(CA·CB)² < \|CA\|²·\|CB\|² |
| Geometry.TwiceSignedAreaTranslate | main.cpp:98 | the area contourArea measures does not change when the polygon is moved |
| Geometry.DegenerateIsNotConvex | main.cpp:98 | an outline of fewer than three vertices is never convex |
| Geometry.TinyPolygonHasNoArea | main.cpp:120 | an outline whose vertices are all within squared distance 1 of each other has zero area |
| ShapeClassifier.Classify | main.cpp:98-125 | the decision block: NoLabel unless the gate ShapeClassifier.PassesGate (LargeEnough and IsConvex, main.cpp:98) passes; TRIANGLE at curves[0] for 3 vertices; CARRE at curves[0] for 4 vertices passing the four-cosine test; otherwise CERCLE at the circle's centre when the chained comparison holds. Its contract: any label implies the gate, TRIANGLE iff gate and 3 vertices, CARRE only for 4 vertices, CERCLE never for 3 or 4, anchors as drawn |
| ShapeClassifier.SourceCosines | main.cpp:105-108 | the four cosines cos1..cos4 with the arguments in the source's order |
| ShapeClassifier.CarreTest | main.cpp:110-111 | all four cosines pass the band; passing it implies the four edges of the quadrilateral are non-zero |
| ShapeClassifier.ChainedCircleTest | main.cpp:121 | `(0.95·π·r² <= area) <= 1.05·π·r²` with the bool read as 0.0 or 1.0; it holds whatever the area once 1.05·π·r² >= 1 |
| ShapeClassifier.ClassifyGate | main.cpp:98 | an outline that is not larger than the threshold, or not convex, gets no label, whatever its vertex count |
| ShapeClassifier.AreaBoundaryRejected | main.cpp:98 | the convex rectangle of area exactly 5000 gets no label: the comparison is strict |
| ShapeClassifier.FewVerticesNoLabel | main.cpp:98-125 | fewer than three vertices never get a label |
| ShapeClassifier.ClassifyTriangle | main.cpp:99-102 | past the gate, three vertices give TRIANGLE anchored at curves[0], with no angle checked |
| ShapeClassifier.Cos4IsCos2 | main.cpp:106-108 | cos4 is the same cosine as cos2: both have apex curves[2] |
| ShapeClassifier.CarreTestApexes | main.cpp:105-111 | the four-cosine test holds iff the angles at curves[1], curves[2] and curves[3] (previous and next neighbour) pass the band; curves[0] is not tested |
| ShapeClassifier.ClassifyQuadrilateral | main.cpp:103-114 | past the gate, a quadrilateral is CARRE at curves[0] iff those three angles pass, equivalently iff 100·dot² < \|CA\|²·\|CB\|² at curves[1], curves[2] and curves[3]; otherwise it gets no label (never another shape) |
| ShapeClassifier.QuadrilateralAnglesDot | main.cpp:110-111 | the band test at each vertex of a quadrilateral, between its previous and next vertex, is the integer dot-product inequality |
| ShapeClassifier.ClassifyParallelogram | main.cpp:98-114 | for w > 0 and h > 0, the parallelogram (0,0),(w,0),(w+s,h),(s,h): its area is w·h, it is convex, and it is CARRE iff w·h > 5000 and 99·s² < h²; otherwise it gets no label |
| ShapeClassifier.SquareIsCarre | main.cpp:98-114 | the square (0,0),(100,0),(100,100),(0,100) is CARRE at (0,0) |
| ShapeClassifier.RhombusIsNotLabelled | main.cpp:103-114 | the rhombus of side 130 (0,0),(130,0),(196,112),(66,112), with angles of about 59.5° and 120.5°, passes the gate and gets no label |
| ShapeClassifier.ChainedTestMeaning | main.cpp:121 | the chained comparison fails only when 0.95·π·r² <= area and 1.05·π·r² < 1 |
| ShapeClassifier.AreaNeedsRadius | main.cpp:117-121 | an enclosing circle with 1.05·π·r² < 1 only fits an outline of zero area |
| ShapeClassifier.ChainedTestHoldsWhenEnclosed | main.cpp:117-121 | the chained comparison holds for every outline of non-zero area and any circle enclosing it |
| ShapeClassifier.ClassifyManyVertices | main.cpp:115-124 | past the gate, five or more vertices inside the enclosing circle (ShapeClassifier.Encloses: every vertex within the radius, as minEnclosingCircle guarantees) always give CERCLE at the circle's centre |
| CorrectedClassifier.ClassifyCorrected | main.cpp:98-125 | the decision block with the rectangle test on all four vertices (previous and next neighbour) and the circle test as `0.95·π·r² <= area && area <= 1.05·π·r²`; same contract on labels and anchors as Classify |
| CorrectedClassifier.CorrectedQuadrilateral | main.cpp:104-114 | with the corrected test, a quadrilateral past the gate is CARRE iff the angles at all four vertices pass the band, i.e. iff 100·dot² < \|CA\|²·\|CB\|² at every vertex, and otherwise gets no label |
| CorrectedClassifier.CorrectedManyVertices | main.cpp:116-124 | with the corrected test, five or more vertices past the gate give CERCLE iff 0.95·π·r² <= area <= 1.05·π·r² as two comparisons, and otherwise get no label |
| CorrectedClassifier.CorrectedAgreesOffQuadrilateralsAndCircles | main.cpp:98-102 | the corrected and the as-written decisions agree on triangles and on every outline the gate rejects |
| CorrectedClassifier.CorrectedRefinesAsWritten | main.cpp:98-125 | every label the corrected decision gives, the code as written gives too |
| CorrectedClassifier.ClassifyKite | main.cpp:98-114 | for k >= 0 and w > 0, the kite (0,0),(k+w,k),(k+w,k+w),(k,k+w): as written it is CARRE at (0,0) iff w²+k·w > 5000 and 99·k² < (k+w)²; the corrected test also requires the first angle to pass |
| CorrectedClassifier.KiteIsCarreAsWritten | main.cpp:105-111 | the kite (0,0),(108,8),(108,108),(8,108), whose first angle is about 81.5°, is CARRE as written and gets no label with the four-angle test |
| CorrectedClassifier.ClassifyPentagon | main.cpp:115-124 | the thin pentagon (0,0),(2x,0),(2x,2y),(x,3y),(0,2y) with y > 0, x >= 5y and area 5xy > 5000, inside the circle centred at (x,y) through its corners, is CERCLE as written and gets no label with the two-sided band |
| CorrectedClassifier.ThinPentagonIsCercleAsWritten | main.cpp:121 | the pentagon (0,0),(400,0),(400,20),(200,30),(0,20), of area 10000, is CERCLE as written and gets no label with the two-sided band |
| ContourLoop.AnnotateFrame | main.cpp:92-127 | the loop's annotations equal ContourLoop.Annotations of the labels: the decision block applied to each outline in turn, one annotation for each outline that gets a label |
| ContourLoop.AnnotationsSound | main.cpp:98-125 | every annotation names one of the contours seen so far and carries that contour's label, never NoLabel |
| ContourLoop.AnnotationsComplete | main.cpp:98-125 | every contour seen so far that gets a label is annotated with it |
| ContourLoop.AnnotationsOrdered | main.cpp:92 | annotations come in strictly increasing contour order, so no contour is annotated twice |
| ContourLoop.FrameAnnotations | main.cpp:92-127 | what a frame's loop draws is exactly the labelled outlines, each once, in contour order, with its own label |

## Left out

- Video capture, the window, the trackbar and its callback (main.cpp:9-15, 25-61), and `imshow`, the key handling and the frame stepping (main.cpp:129-158) are I/O and UI, not the classifier.
- `cvtColor`, `Canny`, `dilate`, `findContours`, `arcLength` and `approxPolyDP` are outside this model. The simplified outlines are inputs to the contour loop.
- `minEnclosingCircle` is not modelled. Its result is an input for each outline. In the source it is only computed for outlines with five or more vertices, and the model reads it only there.
- ClassifyManyVertices: requires that the circle encloses every vertex. That is what `minEnclosingCircle` guarantees; the model states it rather than computing the circle.
- `contourArea` and `isContourConvex` are given by their definitions, not by OpenCV's code. The area is the shoelace sum. Convexity requires every turn to have the same non-zero sign, so a zero turn (a repeated vertex or three collinear ones) makes an outline not convex. That rule follows the behaviour of OpenCV's `isContourConvex`; nothing in main.cpp decides it.
- Floating point is not modelled: `norm`'s square root, `pow`, the `double` division in getCosAlKashi, and the `float` radius. The cosine and the band test are exact. The areas and the circle are exact reals. Rounding near a band boundary may therefore decide differently in the program.
- Integer width is not modelled: `cv::Point` has 32-bit `int` coordinates and OpenCV's `isContourConvex` multiplies edge components in `int`, while the model's `Point` uses unbounded integers. The coordinates `findContours` returns lie inside the frame, so none of these products can overflow, and the model loses no behaviour.
- Classify: the CERCLE label is anchored at the exact centre. `putText` at main.cpp:122 takes a `cv::Point`, so the program rounds the `Point2f` centre to whole pixels; the model does not.
- `putText` and `drawContours` are modelled only as the recorded annotation (contour index and label with its anchor). Fonts, colours, line widths and the drawing on the frame are left out.
- The `cout` of cos3 (line 109), the unused `RNG` and the empty `hierarchy` have no effect on the labels and are left out.

## Findings

| source | as written | input that shows it | evidently intended | confidence | as-written member | corrected member |
|---|---|---|---|---|---|---|
| main.cpp:108 | `cos4 = getCosAlKashi(curves[1], curves[3], curves[2])` repeats cos2's apex curves[2], so the angle at curves[0] is never tested | the kite (0,0),(108,8),(108,108),(8,108): convex, area 10800, first angle about 81.5°, labelled CARRE | cos4 with apex curves[0], i.e. `getCosAlKashi(curves[3], curves[1], curves[0])`, so all four angles are tested | not executed | CorrectedClassifier.KiteIsCarreAsWritten | CorrectedClassifier.CorrectedQuadrilateral |
| main.cpp:121 | `0.95*π*r² <= area <= 1.05*π*r²` compares the bool of the first comparison with the upper bound, which holds for any enclosed outline of non-zero area | the pentagon (0,0),(400,0),(400,20),(200,30),(0,20) with enclosing circle centre (200,10), r² = 40100: area 10000 against a disc of about 125978, labelled CERCLE | `0.95*π*r² <= area && area <= 1.05*π*r²` | not executed | CorrectedClassifier.ThinPentagonIsCercleAsWritten | CorrectedClassifier.CorrectedManyVertices |
