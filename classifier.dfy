/** The per-outline decision of the contour loop: drop the simplified
    outline unless it is large and convex, then label it by its vertex
    count. Modelled as the code is written, with its four cosines in the
    source's argument order and its chained circle comparison. */
module ShapeClassifier {
  import opened Geometry

  /** The label drawn for one simplified outline and the point the text is
      anchored at. NoLabel: nothing is drawn for it. */
  datatype Label =
    | NoLabel
    | Triangle(anchor: Point)
    | Carre(anchor: Point)
    | Cercle(center: RealPoint)

  /** What minEnclosingCircle reports for the outline: its centre and the
      square of its radius (the radius is only ever used squared). */
  datatype Circle = Circle(center: RealPoint, radius2: real)

  /** CV_PI. */
  const PI: real := 3.1415926535897932384626433832795

  /** The outline's area must exceed this many square pixels. */
  const AREA_THRESHOLD: int := 5000

  /** contourArea(curves). */
  function Area(p: Polygon): real {
    (TwiceArea(p) as real) / 2.0
  }

  /** contourArea(curves) > 5000, compared on twice the area so that it is
      exact on integer points. */
  predicate LargeEnough(p: Polygon) {
    TwiceArea(p) > 2 * AREA_THRESHOLD
  }

  /** The gate of the decision block: large enough and convex. */
  predicate PassesGate(p: Polygon) {
    LargeEnough(p) && IsConvex(p)
  }

  /** Every vertex lies in the circle. */
  predicate Encloses(c: Circle, p: Polygon) {
    c.radius2 >= 0.0 && forall i :: 0 <= i < |p| ==> RealDistSq(p[i], c.center) <= c.radius2
  }

  /** The four cosines cos1..cos4 of a quadrilateral, with the arguments in
      the order the source passes them. */
  function SourceCosines(q: Polygon): (r: seq<Cosine>)
    requires |q| == 4
    ensures |r| == 4
  {
    [ CosAlKashi(q[2], q[0], q[1]),
      CosAlKashi(q[3], q[1], q[2]),
      CosAlKashi(q[0], q[2], q[3]),
      CosAlKashi(q[1], q[3], q[2]) ]
  }

  /** The rectangle test: all four cosines inside (-0.1, 0.1). */
  predicate CarreTest(q: Polygon)
    requires |q| == 4
    ensures CarreTest(q) ==> q[0] != q[1] && q[1] != q[2] && q[2] != q[3] && q[3] != q[0]
  {
    var cs := SourceCosines(q);
    InBand(cs[0]) && InBand(cs[1]) && InBand(cs[2]) && InBand(cs[3])
  }

  /** The angle at vertex k, between its previous and its next vertex (with
      wrap-around), has a cosine inside (-0.1, 0.1). */
  predicate RightAngleAt(p: Polygon, k: int)
    requires 0 <= k < |p|
  {
    var n := |p|;
    InBand(CosAlKashi(p[(k + n - 1) % n], p[(k + 1) % n], p[k]))
  }

  /** The circle test as C++ evaluates `lower <= area <= upper`: the bool
      (lower <= area) becomes 0.0 or 1.0, and that is compared with upper. */
  predicate ChainedCircleTest(area: real, radius2: real)
    ensures 1.0 <= 1.05 * PI * radius2 ==> ChainedCircleTest(area, radius2)
  {
    var lowerHolds: real := if 0.95 * PI * radius2 <= area then 1.0 else 0.0;
    lowerHolds <= 1.05 * PI * radius2
  }

  /** The decision block for one simplified outline `curves`; `circle` is
      what minEnclosingCircle reports for it (consulted only when the
      outline has neither 3 nor 4 vertices). */
  function Classify(curves: Polygon, circle: Circle): (r: Label)
    ensures r != NoLabel ==> PassesGate(curves)
    ensures r.Triangle? <==> PassesGate(curves) && |curves| == 3
    ensures r.Triangle? || r.Carre? ==> r.anchor == curves[0]
    ensures r.Carre? ==> |curves| == 4
    ensures r.Cercle? ==> |curves| != 3 && |curves| != 4 && r.center == circle.center
  {
    if !PassesGate(curves) then NoLabel
    else if |curves| == 3 then Triangle(curves[0])
    else if |curves| == 4 then
      if CarreTest(curves) then Carre(curves[0]) else NoLabel
    else if ChainedCircleTest(Area(curves), circle.radius2) then Cercle(circle.center)
    else NoLabel
  }

  // ---------------------------------------------------------------------
  // The gate

  /** No label unless the outline is larger than the threshold and convex,
      whatever its vertex count. */
  lemma ClassifyGate(p: Polygon, c: Circle)
    ensures !LargeEnough(p) ==> Classify(p, c) == NoLabel
    ensures !IsConvex(p) ==> Classify(p, c) == NoLabel
  {
  }

  /** An outline of area exactly 5000 is not large enough: the comparison is
      strict. */
  lemma AreaBoundaryRejected(circle: Circle)
    ensures var p := [Point(0, 0), Point(100, 0), Point(100, 50), Point(0, 50)];
            TwiceArea(p) == 2 * AREA_THRESHOLD && IsConvex(p) && Classify(p, circle) == NoLabel
  {
    ClassifyParallelogram(100, 0, 50, circle);
  }

  /** Fewer than three vertices never get a label. */
  lemma FewVerticesNoLabel(p: Polygon, c: Circle)
    requires |p| < 3
    ensures Classify(p, c) == NoLabel
  {
    DegenerateIsNotConvex(p);
  }

  // ---------------------------------------------------------------------
  // Three vertices

  /** Past the gate, three vertices always make a triangle anchored at the
      first vertex, with no angle checked. */
  lemma ClassifyTriangle(p: Polygon, c: Circle)
    requires PassesGate(p) && |p| == 3
    ensures Classify(p, c) == Triangle(p[0])
  {
  }

  // ---------------------------------------------------------------------
  // Four vertices

  /** cos4 and cos2 are the same cosine: both have apex curves[2], with the
      neighbours passed in swapped order. */
  lemma Cos4IsCos2(q: Polygon)
    requires |q| == 4
    ensures SourceCosines(q)[3] == SourceCosines(q)[1]
  {
    CosAlKashiSymmetric(q[1], q[3], q[2]);
  }

  /** The rectangle test checks the angles at curves[1], curves[2] and
      curves[3] only; the angle at curves[0] is never tested. */
  lemma CarreTestApexes(q: Polygon)
    requires |q| == 4
    ensures CarreTest(q) <==> RightAngleAt(q, 1) && RightAngleAt(q, 2) && RightAngleAt(q, 3)
  {
    CosAlKashiSymmetric(q[2], q[0], q[1]);
    CosAlKashiSymmetric(q[3], q[1], q[2]);
    CosAlKashiSymmetric(q[0], q[2], q[3]);
    Cos4IsCos2(q);
  }

  /** Past the gate, a quadrilateral is labelled CARRE at its first vertex
      exactly when the angles at curves[1..3] pass the band test, and is
      otherwise left without a label (never relabelled as another shape). */
  lemma ClassifyQuadrilateral(p: Polygon, c: Circle)
    requires PassesGate(p) && |p| == 4
    ensures Classify(p, c) == Carre(p[0]) <==> RightAngleAt(p, 1) && RightAngleAt(p, 2) && RightAngleAt(p, 3)
    ensures Classify(p, c) == Carre(p[0]) <==>
              NearlyPerpendicular(p[0], p[2], p[1]) && NearlyPerpendicular(p[1], p[3], p[2]) && NearlyPerpendicular(p[2], p[0], p[3])
    ensures Classify(p, c) == Carre(p[0]) || Classify(p, c) == NoLabel
  {
    CarreTestApexes(p);
    QuadrilateralAnglesDot(p);
  }

  /** The band test at each vertex of a quadrilateral, in the integer dot
      form. */
  lemma QuadrilateralAnglesDot(q: Polygon)
    requires |q| == 4
    ensures RightAngleAt(q, 0) <==> NearlyPerpendicular(q[3], q[1], q[0])
    ensures RightAngleAt(q, 1) <==> NearlyPerpendicular(q[0], q[2], q[1])
    ensures RightAngleAt(q, 2) <==> NearlyPerpendicular(q[1], q[3], q[2])
    ensures RightAngleAt(q, 3) <==> NearlyPerpendicular(q[2], q[0], q[3])
  {
    assert RightAngleAt(q, 0) <==> NearlyPerpendicular(q[3], q[1], q[0]) by {
      RightAngleDot(q, 0);
    }
    assert RightAngleAt(q, 1) <==> NearlyPerpendicular(q[0], q[2], q[1]) by {
      RightAngleDot(q, 1);
    }
    assert RightAngleAt(q, 2) <==> NearlyPerpendicular(q[1], q[3], q[2]) by {
      RightAngleDot(q, 2);
    }
    assert RightAngleAt(q, 3) <==> NearlyPerpendicular(q[2], q[0], q[3]) by {
      RightAngleDot(q, 3);
    }
  }

  lemma RightAngleDot(p: Polygon, k: int)
    requires 0 <= k < |p|
    ensures RightAngleAt(p, k) <==> NearlyPerpendicular(p[(k + |p| - 1) % |p|], p[(k + 1) % |p|], p[k])
  {
    InBandIffDot(p[(k + |p| - 1) % |p|], p[(k + 1) % |p|], p[k]);
  }

  lemma PositiveProduct2(w: int, h: int)
    requires w > 0 && h > 0
    ensures w * h > 0 && w * w > 0
  {
  }

  /** 100 (s w)^2 < (s^2 + h^2) w^2 exactly when 99 s^2 < h^2. */
  lemma ShearBand(s: int, h: int, w: int)
    requires w > 0
    ensures 100 * (s * w) * (s * w) < (s * s + h * h) * (w * w) <==> 99 * (s * s) < h * h
  {
    var k := w * w;
    assert k > 0;
    assert 100 * (s * w) * (s * w) == 100 * (s * s) * k;
    assert (s * s + h * h) * k == (s * s) * k + (h * h) * k;
    assert 100 * (s * s) * k < (s * s) * k + (h * h) * k <==> (99 * (s * s)) * k < (h * h) * k;
  }

  /** The parallelogram with base w along the x axis from the origin, height
      h and horizontal shear s. */
  function Parallelogram(w: int, s: int, h: int): (p: Polygon)
    ensures |p| == 4 && p[0] == Point(0, 0)
  {
    [Point(0, 0), Point(w, 0), Point(w + s, h), Point(s, h)]
  }

  lemma ParallelogramArea(w: int, s: int, h: int)
    requires w > 0 && h > 0
    ensures TwiceArea(Parallelogram(w, s, h)) == 2 * (w * h)
  {
    var p := Parallelogram(w, s, h);
    PositiveProduct2(w, h);
    ShoelaceQuadrilateral(p[0], p[1], p[2], p[3]);
    CrossIs(0, 0, w, 0, 0);
    CrossIs(w, 0, w + s, h, w * h);
    CrossIs(w + s, h, s, h, w * h);
    CrossIs(s, h, 0, 0, 0);
  }

  lemma ParallelogramConvex(w: int, s: int, h: int)
    requires w > 0 && h > 0
    ensures IsConvex(Parallelogram(w, s, h))
  {
    var p := Parallelogram(w, s, h);
    PositiveProduct2(w, h);
    CornerIs(s, h, 0, 0, w, 0, w * h);
    CornerIs(0, 0, w, 0, w + s, h, w * h);
    CornerIs(w, 0, w + s, h, s, h, w * h);
    CornerIs(w + s, h, s, h, 0, 0, w * h);
    ConvexQuadrilateral(p[0], p[1], p[2], p[3]);
  }

  /** The band inequality for an edge pair (s, h) and (w, 0), up to signs
      and order. */
  lemma ShearCorner(ux: int, uy: int, vx: int, vy: int, s: int, h: int, w: int)
    requires w > 0
    requires (ux == s && uy == h) || (ux == -s && uy == -h)
    requires (vx == w || vx == -w) && vy == 0
    ensures 100 * (ux * vx + uy * vy) * (ux * vx + uy * vy) < (ux * ux + uy * uy) * (vx * vx + vy * vy) <==> 99 * (s * s) < h * h
    ensures 100 * (vx * ux + vy * uy) * (vx * ux + vy * uy) < (vx * vx + vy * vy) * (ux * ux + uy * uy) <==> 99 * (s * s) < h * h
  {
    ShearBand(s, h, w);
    assert (ux * vx + uy * vy) * (ux * vx + uy * vy) == (s * w) * (s * w);
    assert ux * ux + uy * uy == s * s + h * h;
    assert vx * vx + vy * vy == w * w;
  }

  /** All four source cosines of the parallelogram make the same band test:
      each apex sees edges (s, h) and (w, 0) up to sign. */
  lemma ParallelogramBand(w: int, s: int, h: int)
    requires w > 0 && h > 0
    ensures CarreTest(Parallelogram(w, s, h)) <==> 99 * (s * s) < h * h
  {
    var cs := SourceCosines(Parallelogram(w, s, h));
    BandOf(w + s, h, 0, 0, w, 0);
    ShearCorner(s, h, -w, 0, s, h, w);
    BandOf(s, h, w, 0, w + s, h);
    ShearCorner(-s, -h, -w, 0, s, h, w);
    BandOf(0, 0, w + s, h, s, h);
    ShearCorner(-s, -h, w, 0, s, h, w);
    BandOf(w, 0, s, h, w + s, h);
    ShearCorner(-s, -h, -w, 0, s, h, w);
  }

  /** The parallelogram is convex, has twice-area 2 w h, passes the rectangle
      test exactly when 99 s^2 < h^2 (its angles are within about 5.7
      degrees of a right angle), and is labelled CARRE at the origin exactly
      when it also exceeds the area threshold. */
  lemma ClassifyParallelogram(w: int, s: int, h: int, circle: Circle)
    requires w > 0 && h > 0
    ensures var p := Parallelogram(w, s, h);
            && TwiceArea(p) == 2 * (w * h)
            && IsConvex(p)
            && (CarreTest(p) <==> 99 * (s * s) < h * h)
            && Classify(p, circle) == (if w * h > AREA_THRESHOLD && 99 * (s * s) < h * h then Carre(Point(0, 0)) else NoLabel)
  {
    ParallelogramArea(w, s, h);
    ParallelogramConvex(w, s, h);
    ParallelogramBand(w, s, h);
  }

  /** The axis-aligned square of side 100 is labelled CARRE at (0, 0). */
  lemma SquareIsCarre(circle: Circle)
    ensures var p := [Point(0, 0), Point(100, 0), Point(100, 100), Point(0, 100)];
            TwiceArea(p) == 20000 && IsConvex(p) && Classify(p, circle) == Carre(Point(0, 0))
  {
    ClassifyParallelogram(100, 0, 100, circle);
  }

  /** The rhombus of side 130 (66^2 + 112^2 = 130^2), with angles of about
      59.5 and 120.5 degrees, is convex and large enough, but fails the
      rectangle test and gets no label. */
  lemma RhombusIsNotLabelled(circle: Circle)
    ensures var p := [Point(0, 0), Point(130, 0), Point(196, 112), Point(66, 112)];
            PassesGate(p) && Classify(p, circle) == NoLabel
  {
    assert 130 * 112 > AREA_THRESHOLD;
    assert !(99 * (66 * 66) < 112 * 112);
    ClassifyParallelogram(130, 66, 112, circle);
  }

  // ---------------------------------------------------------------------
  // Five or more vertices

  /** What the chained comparison amounts to: it fails only when the lower
      bound holds and 1.05 pi r^2 is below 1. */
  lemma ChainedTestMeaning(area: real, radius2: real)
    requires radius2 >= 0.0
    ensures ChainedCircleTest(area, radius2) <==> (0.95 * PI * radius2 <= area ==> 1.0 <= 1.05 * PI * radius2)
  {
  }

  lemma RealSquareNonNeg(x: real)
    ensures x * x >= 0.0
  {
    if x < 0.0 {
      assert x * x == (-x) * (-x);
    }
  }

  lemma TwoSquares(s: real, t: real)
    ensures (s - t) * (s - t) <= 2.0 * (s * s) + 2.0 * (t * t)
  {
    RealSquareNonNeg(s + t);
    assert 2.0 * (s * s) + 2.0 * (t * t) - (s - t) * (s - t) == (s + t) * (s + t);
  }

  lemma SmallDiscCoordinates(x1: int, y1: int, x2: int, y2: int, cx: real, cy: real, radius2: real)
    requires (x1 as real - cx) * (x1 as real - cx) + (y1 as real - cy) * (y1 as real - cy) <= radius2
    requires (x2 as real - cx) * (x2 as real - cx) + (y2 as real - cy) * (y2 as real - cy) <= radius2
    requires radius2 < 0.31
    ensures (x1 - x2) * (x1 - x2) + (y1 - y2) * (y1 - y2) <= 1
  {
    var dx, dy := x1 - x2, y1 - y2;
    assert (dx * dx) as real == (dx as real) * (dx as real);
    assert (dy * dy) as real == (dy as real) * (dy as real);
    assert dx as real == (x1 as real - cx) - (x2 as real - cx);
    assert dy as real == (y1 as real - cy) - (y2 as real - cy);
    TwoSquares(x1 as real - cx, x2 as real - cx);
    TwoSquares(y1 as real - cy, y2 as real - cy);
    assert (dx * dx + dy * dy) as real < 2.0;
  }

  /** Two integer points in a disc of squared radius below 0.31 are at
      squared distance at most 1. */
  lemma CloseInSmallDisc(a: Point, b: Point, center: RealPoint, radius2: real)
    requires RealDistSq(a, center) <= radius2 && RealDistSq(b, center) <= radius2
    requires radius2 < 0.31
    ensures DistSq(a, b) <= 1
  {
    SmallDiscCoordinates(a.x, a.y, b.x, b.y, center.x, center.y, radius2);
  }

  /** An enclosing circle with 1.05 pi r^2 below 1 only fits an outline
      with no area. */
  lemma AreaNeedsRadius(p: Polygon, c: Circle)
    requires Encloses(c, p)
    ensures TwiceArea(p) == 0 || 1.0 <= 1.05 * PI * c.radius2
  {
    if 1.05 * PI * c.radius2 < 1.0 {
      forall i, j | 0 <= i < |p| && 0 <= j < |p|
        ensures DistSq(p[i], p[j]) <= 1
      {
        CloseInSmallDisc(p[i], p[j], c.center, c.radius2);
      }
      TinyPolygonHasNoArea(p);
    }
  }

  /** The chained comparison holds for every outline of non-zero area and
      any circle that encloses it. */
  lemma ChainedTestHoldsWhenEnclosed(p: Polygon, c: Circle)
    requires Encloses(c, p) && TwiceArea(p) > 0
    ensures ChainedCircleTest(Area(p), c.radius2)
  {
    AreaNeedsRadius(p, c);
  }

  /** Past the gate, five or more vertices always make a circle anchored at
      the centre of the enclosing circle. */
  lemma ClassifyManyVertices(p: Polygon, c: Circle)
    requires PassesGate(p) && |p| >= 5 && Encloses(c, p)
    ensures Classify(p, c) == Cercle(c.center)
  {
    ChainedTestHoldsWhenEnclosed(p, c);
  }
}
