/** The decision block as its comments say it is meant to work: the
    rectangle test checks the angle at every vertex, and the circle test
    keeps the area between 95% and 105% of the enclosing disc. Each of the
    two departures of the code as written is shown on a concrete outline. */
module CorrectedClassifier {
  import opened Geometry
  import opened ShapeClassifier

  /** The angle at every vertex of the quadrilateral passes the band test. */
  predicate AllRightAngles(q: Polygon)
    requires |q| == 4
  {
    RightAngleAt(q, 0) && RightAngleAt(q, 1) && RightAngleAt(q, 2) && RightAngleAt(q, 3)
  }

  /** 0.95 pi r^2 <= area <= 1.05 pi r^2, read as two comparisons. */
  predicate CircleBand(area: real, radius2: real) {
    0.95 * PI * radius2 <= area && area <= 1.05 * PI * radius2
  }

  /** The decision block with both tests as intended. */
  function ClassifyCorrected(curves: Polygon, circle: Circle): (r: Label)
    ensures r != NoLabel ==> PassesGate(curves)
    ensures r.Triangle? <==> PassesGate(curves) && |curves| == 3
    ensures r.Triangle? || r.Carre? ==> r.anchor == curves[0]
    ensures r.Carre? ==> |curves| == 4
    ensures r.Cercle? ==> |curves| != 3 && |curves| != 4 && r.center == circle.center
  {
    if !PassesGate(curves) then NoLabel
    else if |curves| == 3 then Triangle(curves[0])
    else if |curves| == 4 then
      if AllRightAngles(curves) then Carre(curves[0]) else NoLabel
    else if CircleBand(Area(curves), circle.radius2) then Cercle(circle.center)
    else NoLabel
  }

  /** Past the gate, the corrected test labels a quadrilateral CARRE exactly
      when all four of its angles pass the band test, that is, when at every
      vertex 100 dot^2 < |edge1|^2 |edge2|^2 for its two edges. */
  lemma CorrectedQuadrilateral(p: Polygon, c: Circle)
    requires PassesGate(p) && |p| == 4
    ensures ClassifyCorrected(p, c) == Carre(p[0]) <==> AllRightAngles(p)
    ensures ClassifyCorrected(p, c) == Carre(p[0]) <==>
              NearlyPerpendicular(p[3], p[1], p[0]) && NearlyPerpendicular(p[0], p[2], p[1]) &&
              NearlyPerpendicular(p[1], p[3], p[2]) && NearlyPerpendicular(p[2], p[0], p[3])
    ensures ClassifyCorrected(p, c) == Carre(p[0]) || ClassifyCorrected(p, c) == NoLabel
  {
    QuadrilateralAnglesDot(p);
  }

  /** Past the gate, the corrected test labels five or more vertices CERCLE
      exactly when the area is within 5% of the enclosing disc's. */
  lemma CorrectedManyVertices(p: Polygon, c: Circle)
    requires PassesGate(p) && |p| >= 5
    ensures ClassifyCorrected(p, c) == Cercle(c.center) <==> CircleBand(Area(p), c.radius2)
    ensures ClassifyCorrected(p, c) == Cercle(c.center) || ClassifyCorrected(p, c) == NoLabel
  {
  }

  /** The two agree on triangles and on everything the gate rejects. */
  lemma CorrectedAgreesOffQuadrilateralsAndCircles(p: Polygon, c: Circle)
    requires !PassesGate(p) || |p| == 3
    ensures ClassifyCorrected(p, c) == Classify(p, c)
  {
  }

  /** Every label the corrected tests give, the code as written gives too:
      the written rectangle test is implied by the four-angle test, and the
      chained comparison holds whenever the area is at most 1.05 pi r^2 and
      beyond the threshold. */
  lemma CorrectedRefinesAsWritten(p: Polygon, c: Circle)
    requires ClassifyCorrected(p, c) != NoLabel
    ensures Classify(p, c) == ClassifyCorrected(p, c)
  {
    if |p| == 4 {
      CarreTestApexes(p);
    }
  }

  // ---------------------------------------------------------------------
  // The angle at curves[0] is never tested

  /** A kite with right angles at (k + w, k), (k + w, k + w) and
      (k, k + w), i.e. a w-by-w square whose corner (k, k) is pulled out
      along the diagonal to the origin. */
  function Kite(k: int, w: int): (p: Polygon)
    ensures |p| == 4 && p[0] == Point(0, 0)
  {
    [Point(0, 0), Point(k + w, k), Point(k + w, k + w), Point(k, k + w)]
  }

  lemma KiteArea(k: int, w: int)
    requires k >= 0 && w > 0
    ensures TwiceArea(Kite(k, w)) == 2 * (w * w + k * w)
  {
    var p := Kite(k, w);
    assert k * w >= 0;
    ShoelaceQuadrilateral(p[0], p[1], p[2], p[3]);
    CrossIs(0, 0, k + w, k, 0);
    CrossIs(k + w, k, k + w, k + w, w * w + k * w);
    CrossIs(k + w, k + w, k, k + w, w * w + k * w);
    CrossIs(k, k + w, 0, 0, 0);
  }

  lemma KiteConvex(k: int, w: int)
    requires k >= 0 && w > 0
    ensures IsConvex(Kite(k, w))
  {
    var p := Kite(k, w);
    assert w * w > 0 && k * w >= 0;
    CornerIs(k, k + w, 0, 0, k + w, k, w * w + 2 * (k * w));
    CornerIs(0, 0, k + w, k, k + w, k + w, w * w + k * w);
    CornerIs(k + w, k, k + w, k + w, k, k + w, w * w);
    CornerIs(k + w, k + w, k, k + w, 0, 0, w * w + k * w);
    ConvexQuadrilateral(p[0], p[1], p[2], p[3]);
  }

  /** 100 (a w)^2 < b w^2 exactly when 100 a^2 < b. */
  lemma ScaleBand(a: int, b: int, w: int)
    requires w > 0
    ensures 100 * (a * w) * (a * w) < b * (w * w) <==> 100 * (a * a) < b
  {
    var m := w * w;
    assert m > 0;
    assert 100 * (a * w) * (a * w) == (100 * (a * a)) * m;
    ScaleMonotoneInt(100 * (a * a), b, m);
  }

  lemma ScaleMonotoneInt(x: int, y: int, m: int)
    requires m > 0
    ensures x * m < y * m <==> x < y
  {
    if x < y {
      assert y * m - x * m == (y - x) * m;
    } else {
      assert x * m - y * m == (x - y) * m;
    }
  }

  /** The band inequality for the edges (-k - w, -k) and (0, w), in either
      order. */
  lemma KiteEdgeBand(k: int, w: int, m: int)
    requires w > 0 && m == (k + w) * (k + w) + k * k
    ensures 100 * (-(k * w)) * (-(k * w)) < m * (w * w) <==> 99 * (k * k) < (k + w) * (k + w)
    ensures 100 * (-(k * w)) * (-(k * w)) < (w * w) * m <==> 99 * (k * k) < (k + w) * (k + w)
  {
    ScaleBand(k, m, w);
    assert 100 * (-(k * w)) * (-(k * w)) == 100 * (k * w) * (k * w);
    assert (w * w) * m == m * (w * w);
  }

  /** The band test at (k + w, k), between (0, 0) and (k + w, k + w). */
  lemma KiteSideBand(k: int, w: int)
    requires k >= 0 && w > 0
    ensures InBand(CosAlKashi(Point(0, 0), Point(k + w, k + w), Point(k + w, k))) <==> 99 * (k * k) < (k + w) * (k + w)
  {
    var m := (k + w) * (k + w) + k * k;
    assert w * w > 0 && m > 0;
    KiteEdgeBand(k, w, m);
    BandIs(0, 0, k + w, k + w, k + w, k, -(k * w), m, w * w);
  }

  /** The band test at (k, k + w), between (k + w, k + w) and (0, 0). */
  lemma KiteOtherSideBand(k: int, w: int)
    requires k >= 0 && w > 0
    ensures InBand(CosAlKashi(Point(k + w, k + w), Point(0, 0), Point(k, k + w))) <==> 99 * (k * k) < (k + w) * (k + w)
  {
    var m := (k + w) * (k + w) + k * k;
    assert w * w > 0 && m > 0;
    KiteEdgeBand(k, w, m);
    BandIs(k + w, k + w, 0, 0, k, k + w, -(k * w), w * w, m);
  }

  /** The angle at (k + w, k) passes the band test exactly when
      99 k^2 < (k + w)^2. */
  lemma KiteSecondAngle(k: int, w: int)
    requires k >= 0 && w > 0
    ensures RightAngleAt(Kite(k, w), 1) <==> 99 * (k * k) < (k + w) * (k + w)
  {
    assert RightAngleAt(Kite(k, w), 1) == InBand(CosAlKashi(Point(0, 0), Point(k + w, k + w), Point(k + w, k)));
    KiteSideBand(k, w);
  }

  /** The band test at (k + w, k + w), between (k + w, k) and (k, k + w). */
  lemma KiteCornerBand(k: int, w: int)
    requires k >= 0 && w > 0
    ensures InBand(CosAlKashi(Point(k + w, k), Point(k, k + w), Point(k + w, k + w)))
  {
    var m := w * w;
    assert m > 0;
    assert m * m > 0;
    BandIs(k + w, k, k, k + w, k + w, k + w, 0, m, m);
  }

  /** The angle at (k + w, k + w) is a right angle. */
  lemma KiteThirdAngle(k: int, w: int)
    requires k >= 0 && w > 0
    ensures RightAngleAt(Kite(k, w), 2)
  {
    assert RightAngleAt(Kite(k, w), 2) == InBand(CosAlKashi(Point(k + w, k), Point(k, k + w), Point(k + w, k + w)));
    KiteCornerBand(k, w);
  }

  /** The angle at (k, k + w) passes the band test exactly when
      99 k^2 < (k + w)^2. */
  lemma KiteFourthAngle(k: int, w: int)
    requires k >= 0 && w > 0
    ensures RightAngleAt(Kite(k, w), 3) <==> 99 * (k * k) < (k + w) * (k + w)
  {
    assert RightAngleAt(Kite(k, w), 3) == InBand(CosAlKashi(Point(k + w, k + w), Point(0, 0), Point(k, k + w)));
    KiteOtherSideBand(k, w);
  }

  /** The band test at the origin, between (k, k + w) and (k + w, k). */
  lemma KiteApexBand(k: int, w: int)
    requires k >= 0 && w > 0
    ensures var d, n := 2 * k * (k + w), k * k + (k + w) * (k + w);
            InBand(CosAlKashi(Point(k, k + w), Point(k + w, k), Point(0, 0))) <==> 100 * d * d < n * n
  {
    var d, n := 2 * k * (k + w), k * k + (k + w) * (k + w);
    assert (k + w) * (k + w) > 0;
    assert n > 0;
    BandIs(k, k + w, k + w, k, 0, 0, d, n, n);
  }

  /** The angle at the origin passes the band test exactly when
      100 (2 k (k + w))^2 < (k^2 + (k + w)^2)^2. */
  lemma KiteFirstAngle(k: int, w: int)
    requires k >= 0 && w > 0
    ensures var d, n := 2 * k * (k + w), k * k + (k + w) * (k + w);
            RightAngleAt(Kite(k, w), 0) <==> 100 * d * d < n * n
  {
    assert RightAngleAt(Kite(k, w), 0) == InBand(CosAlKashi(Point(k, k + w), Point(k + w, k), Point(0, 0)));
    KiteApexBand(k, w);
  }

  /** The code as written labels the kite CARRE when it is large enough and
      its last three angles pass, whatever the angle at its first vertex; the
      four-angle test also needs that first angle. */
  lemma ClassifyKite(k: int, w: int, c: Circle)
    requires k >= 0 && w > 0
    ensures var large, sides := w * w + k * w > AREA_THRESHOLD, 99 * (k * k) < (k + w) * (k + w);
            var d, n := 2 * k * (k + w), k * k + (k + w) * (k + w);
            && Classify(Kite(k, w), c) == (if large && sides then Carre(Point(0, 0)) else NoLabel)
            && ClassifyCorrected(Kite(k, w), c) == (if large && sides && 100 * d * d < n * n then Carre(Point(0, 0)) else NoLabel)
  {
    KiteArea(k, w);
    KiteConvex(k, w);
    KiteSecondAngle(k, w);
    KiteThirdAngle(k, w);
    KiteFourthAngle(k, w);
    KiteFirstAngle(k, w);
    CarreTestApexes(Kite(k, w));
  }

  /** The kite (0, 0), (108, 8), (108, 108), (8, 108), whose first angle
      is about 81.5 degrees, is CARRE as written and unlabelled by the
      four-angle test. */
  lemma KiteIsCarreAsWritten(c: Circle)
    ensures Kite(8, 100) == [Point(0, 0), Point(108, 8), Point(108, 108), Point(8, 108)]
    ensures Classify(Kite(8, 100), c) == Carre(Point(0, 0))
    ensures ClassifyCorrected(Kite(8, 100), c) == NoLabel
  {
    assert 100 * 100 + 8 * 100 > AREA_THRESHOLD;
    assert 99 * (8 * 8) < (8 + 100) * (8 + 100);
    assert !(100 * (2 * 8 * (8 + 100)) * (2 * 8 * (8 + 100)) < (8 * 8 + (8 + 100) * (8 + 100)) * (8 * 8 + (8 + 100) * (8 + 100)));
    ClassifyKite(8, 100, c);
  }

  // ---------------------------------------------------------------------
  // The chained comparison

  /** A long, thin convex pentagon (0, 0), (2x, 0), (2x, 2y), (x, 3y),
      (0, 2y). */
  function Pentagon(x: int, y: int): (p: Polygon)
    ensures |p| == 5
  {
    [Point(0, 0), Point(2 * x, 0), Point(2 * x, 2 * y), Point(x, 3 * y), Point(0, 2 * y)]
  }

  /** The circle centred at (x, y) through the corners (0, 0) and (2x, 2y). */
  function PentagonCircle(x: int, y: int): Circle {
    Circle(RealPoint(x as real, y as real), (x * x + y * y) as real)
  }

  lemma PentagonArea(x: int, y: int)
    requires x > 0 && y > 0
    ensures TwiceArea(Pentagon(x, y)) == 10 * (x * y)
  {
    var p := Pentagon(x, y);
    var m := x * y;
    assert m > 0;
    ShoelacePentagon(p[0], p[1], p[2], p[3], p[4]);
    CrossIs(0, 0, 2 * x, 0, 0);
    CrossIs(2 * x, 0, 2 * x, 2 * y, 4 * m);
    CrossIs(2 * x, 2 * y, x, 3 * y, 4 * m);
    CrossIs(x, 3 * y, 0, 2 * y, 2 * m);
    CrossIs(0, 2 * y, 0, 0, 0);
  }

  lemma PentagonConvex(x: int, y: int)
    requires x > 0 && y > 0
    ensures IsConvex(Pentagon(x, y))
  {
    var p := Pentagon(x, y);
    var m := x * y;
    assert m > 0;
    CornerIs(0, 2 * y, 0, 0, 2 * x, 0, 4 * m);
    CornerIs(0, 0, 2 * x, 0, 2 * x, 2 * y, 4 * m);
    CornerIs(2 * x, 0, 2 * x, 2 * y, x, 3 * y, 2 * m);
    CornerIs(2 * x, 2 * y, x, 3 * y, 0, 2 * y, 2 * m);
    CornerIs(x, 3 * y, 0, 2 * y, 0, 0, 2 * m);
    ConvexPentagon(p[0], p[1], p[2], p[3], p[4]);
  }

  lemma PentagonEnclosed(x: int, y: int)
    requires x > 0 && y > 0 && 3 * (y * y) <= x * x
    ensures Encloses(PentagonCircle(x, y), Pentagon(x, y))
  {
    var p, c := Pentagon(x, y), PentagonCircle(x, y);
    var xr, yr := x as real, y as real;
    assert c.radius2 == xr * xr + yr * yr;
    assert (3 * (y * y)) as real <= (x * x) as real;
    forall i | 0 <= i < |p|
      ensures RealDistSq(p[i], c.center) <= c.radius2
    {
      assert i == 0 || i == 1 || i == 2 || i == 3 || i == 4;
    }
  }

  /** When x >= 5y the pentagon fills less than 95% of its circle. */
  lemma PentagonBelowBand(x: int, y: int)
    requires y > 0 && x >= 5 * y
    ensures Area(Pentagon(x, y)) < 0.95 * PI * (PentagonCircle(x, y).radius2)
  {
    PentagonArea(x, y);
    assert x * x >= 5 * (x * y) by {
      assert x * x - 5 * (x * y) == x * (x - 5 * y);
    }
    var a, r := (5 * (x * y)) as real, (x * x + y * y) as real;
    assert a <= r;
    assert Area(Pentagon(x, y)) == a;
    assert a > 0.0;
  }

  /** The code as written labels the pentagon CERCLE once it passes the
      gate, because the chained comparison holds for any enclosed outline;
      the intended band test rejects it when x >= 5y. */
  lemma ClassifyPentagon(x: int, y: int)
    requires y > 0 && x >= 5 * y && 5 * (x * y) > AREA_THRESHOLD
    ensures PassesGate(Pentagon(x, y)) && Encloses(PentagonCircle(x, y), Pentagon(x, y))
    ensures Classify(Pentagon(x, y), PentagonCircle(x, y)) == Cercle(RealPoint(x as real, y as real))
    ensures ClassifyCorrected(Pentagon(x, y), PentagonCircle(x, y)) == NoLabel
  {
    PentagonArea(x, y);
    PentagonConvex(x, y);
    assert 3 * (y * y) <= x * x by {
      assert x * x >= (5 * y) * (5 * y);
    }
    PentagonEnclosed(x, y);
    PentagonBelowBand(x, y);
    ClassifyManyVertices(Pentagon(x, y), PentagonCircle(x, y));
  }

  /** The pentagon (0, 0), (400, 0), (400, 20), (200, 30), (0, 20), of area
      10000 inside a circle of area about 125978, is CERCLE as written and
      unlabelled by the intended band test. */
  lemma ThinPentagonIsCercleAsWritten()
    ensures Area(Pentagon(200, 10)) == 10000.0
    ensures Classify(Pentagon(200, 10), PentagonCircle(200, 10)) == Cercle(RealPoint(200.0, 10.0))
    ensures ClassifyCorrected(Pentagon(200, 10), PentagonCircle(200, 10)) == NoLabel
  {
    PentagonArea(200, 10);
    ClassifyPentagon(200, 10);
  }
}
