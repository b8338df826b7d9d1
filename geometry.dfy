/** Integer plane geometry used by the shape classifier: vectors between
    pixel points, the shoelace area of a closed polygon, strict convexity,
    and the cosine that getCosAlKashi computes by the law of cosines,
    kept exact (no square roots, no floating point). */
module Geometry {

  /** A cv::Point: integer pixel coordinates. */
  datatype Point = Point(x: int, y: int)

  /** A cv::Point2f, with exact real coordinates. */
  datatype RealPoint = RealPoint(x: real, y: real)

  /** A simplified outline: its vertices in stored order; the last vertex
      joins the first. */
  type Polygon = seq<Point>

  function Sub(a: Point, b: Point): Point {
    Point(a.x - b.x, a.y - b.y)
  }

  function Dot(u: Point, v: Point): int {
    u.x * v.x + u.y * v.y
  }

  function Cross(u: Point, v: Point): int {
    u.x * v.y - u.y * v.x
  }

  /** Squared Euclidean length. */
  function Norm2(u: Point): int {
    u.x * u.x + u.y * u.y
  }

  /** Squared distance between two points. */
  function DistSq(a: Point, b: Point): int {
    Norm2(Sub(a, b))
  }

  /** An integer square is at least the absolute value. */
  lemma SquareAtLeastAbs(x: int)
    ensures x * x >= (if x < 0 then -x else x)
  {
    if x >= 0 {
      assert x * x - x == x * (x - 1);
    } else {
      assert x * x + x == (-x) * (-x - 1);
    }
  }

  /** A squared length is non-negative, and zero only for the zero vector;
      more precisely it is at least the sum of the absolute components. */
  lemma Norm2Bounds(u: Point)
    ensures Norm2(u) >= (if u.x < 0 then -u.x else u.x) + (if u.y < 0 then -u.y else u.y)
    ensures Norm2(u) >= 0
    ensures Norm2(u) == 0 <==> u == Point(0, 0)
  {
    SquareAtLeastAbs(u.x);
    SquareAtLeastAbs(u.y);
  }

  /** Squared distance from an integer vertex to a real point. */
  function RealDistSq(a: Point, c: RealPoint): real {
    (a.x as real - c.x) * (a.x as real - c.x) + (a.y as real - c.y) * (a.y as real - c.y)
  }

  // ---------------------------------------------------------------------
  // Area (contourArea)

  /** Sum of Cross(q[i], q[i+1]) along the open chain q. */
  function ChainCross(q: seq<Point>): int
    decreases |q|
  {
    if |q| < 2 then 0 else Cross(q[0], q[1]) + ChainCross(q[1..])
  }

  /** Twice the signed shoelace area of the closed polygon p: the sum of
      Cross over every edge, the closing edge included. */
  function TwiceSignedArea(p: Polygon): int {
    if |p| == 0 then 0 else ChainCross(p + [p[0]])
  }

  /** Twice the unsigned area, i.e. what contourArea reports, doubled so
      that it stays an integer. */
  function TwiceArea(p: Polygon): (r: nat)
    ensures |p| < 3 ==> r == 0
  {
    var s := TwiceSignedArea(p);
    assert |p| < 3 ==> s == 0 by {
      if |p| < 3 {
        DegenerateHasNoArea(p);
      }
    }
    if s < 0 then -s else s
  }

  /** The polygon moved by -o. */
  function Translate(p: seq<Point>, o: Point): (r: seq<Point>)
    ensures |r| == |p|
    ensures forall i {:trigger r[i]} :: 0 <= i < |p| ==> r[i] == Sub(p[i], o)
  {
    seq(|p|, i requires 0 <= i < |p| => Sub(p[i], o))
  }

  lemma CrossShift(a: Point, b: Point, o: Point)
    ensures Cross(Sub(a, o), Sub(b, o)) == Cross(a, b) - Cross(a, o) + Cross(b, o)
  {
  }

  /** Moving an open chain changes its Cross sum only by its two ends. */
  lemma {:induction false} ChainCrossTranslate(q: seq<Point>, o: Point)
    requires |q| >= 1
    ensures ChainCross(Translate(q, o)) == ChainCross(q) + Cross(q[|q| - 1], o) - Cross(q[0], o)
    decreases |q|
  {
    var t := Translate(q, o);
    if |q| >= 2 {
      assert t[1..] == Translate(q[1..], o);
      ChainCrossTranslate(q[1..], o);
      CrossShift(q[0], q[1], o);
    }
  }

  /** The area does not depend on where the polygon sits. */
  lemma TwiceSignedAreaTranslate(p: Polygon, o: Point)
    ensures TwiceSignedArea(Translate(p, o)) == TwiceSignedArea(p)
  {
    if |p| > 0 {
      var t := Translate(p, o);
      assert t + [t[0]] == Translate(p + [p[0]], o);
      ChainCrossTranslate(p + [p[0]], o);
    }
  }

  /** Fewer than three vertices enclose no area. */
  lemma DegenerateHasNoArea(p: Polygon)
    requires |p| < 3
    ensures TwiceSignedArea(p) == 0
  {
    if |p| == 1 {
      var q := p + [p[0]];
      assert q[1..] == [p[0]];
      assert ChainCross(q) == Cross(p[0], p[0]) + ChainCross([p[0]]);
    } else if |p| == 2 {
      var q := p + [p[0]];
      assert q[1..] == [p[1], p[0]];
      assert q[1..][1..] == [p[0]];
      assert ChainCross(q[1..]) == Cross(p[1], p[0]) + ChainCross([p[0]]);
      assert ChainCross(q) == Cross(p[0], p[1]) + Cross(p[1], p[0]);
    }
  }

  /** An integer vector of squared length at most 1 is zero or a unit axis vector. */
  lemma UnitComponents(u: Point)
    requires Norm2(u) <= 1
    ensures -1 <= u.x <= 1 && -1 <= u.y <= 1
    ensures u.x == 0 || u.y == 0
  {
    Norm2Bounds(u);
  }

  /** Two integer vectors within squared distance 1 of the origin and of
      each other are collinear. */
  lemma UnitCrossZero(u: Point, v: Point)
    requires Norm2(u) <= 1 && Norm2(v) <= 1 && DistSq(u, v) <= 1
    ensures Cross(u, v) == 0
  {
    UnitComponents(u);
    UnitComponents(v);
    UnitComponents(Sub(u, v));
    UnitCrossCases(u.x, u.y, v.x, v.y);
  }

  lemma UnitCrossCases(ux: int, uy: int, vx: int, vy: int)
    requires -1 <= ux <= 1 && -1 <= uy <= 1 && -1 <= vx <= 1 && -1 <= vy <= 1
    requires ux == 0 || uy == 0
    requires vx == 0 || vy == 0
    requires ux - vx == 0 || uy - vy == 0
    ensures ux * vy - uy * vx == 0
  {
  }

  /** A chain of vectors within squared distance 1 of the origin and of one
      another has a zero Cross sum. */
  lemma {:induction false} TinyChainHasNoArea(q: seq<Point>)
    requires forall i :: 0 <= i < |q| ==> Norm2(q[i]) <= 1
    requires forall i, j :: 0 <= i < |q| && 0 <= j < |q| ==> DistSq(q[i], q[j]) <= 1
    ensures ChainCross(q) == 0
    decreases |q|
  {
    if |q| >= 2 {
      UnitCrossZero(q[0], q[1]);
      var r := q[1..];
      assert forall i :: 0 <= i < |r| ==> r[i] == q[i + 1];
      TinyChainHasNoArea(r);
    }
  }

  /** Squared distances do not change when both points move by the same vector. */
  lemma DistSqShift(a: Point, b: Point, o: Point)
    ensures DistSq(Sub(a, o), Sub(b, o)) == DistSq(a, b)
  {
    assert Sub(Sub(a, o), Sub(b, o)) == Sub(a, b);
  }

  /** Closing a tight cluster and moving it to its first vertex keeps it
      tight, now around the origin. */
  lemma TinyClosedChain(p: Polygon, i: int, j: int)
    requires forall i, j :: 0 <= i < |p| && 0 <= j < |p| ==> DistSq(p[i], p[j]) <= 1
    requires 0 < |p| && 0 <= i <= |p| && 0 <= j <= |p|
    ensures var q := Translate(p + [p[0]], p[0]); Norm2(q[i]) <= 1 && DistSq(q[i], q[j]) <= 1
  {
    var o := p[0];
    var r := p + [p[0]];
    var q := Translate(r, o);
    var a := if i < |p| then i else 0;
    var b := if j < |p| then j else 0;
    assert r[i] == p[a] && r[j] == p[b];
    assert q[i] == Sub(p[a], o) && q[j] == Sub(p[b], o);
    assert DistSq(p[a], p[0]) <= 1 && DistSq(p[a], p[b]) <= 1;
    assert Norm2(q[i]) == DistSq(p[a], o);
    DistSqShift(p[a], p[b], o);
  }

  /** A polygon whose vertices all lie within squared distance 1 of one
      another encloses no area. */
  lemma TinyPolygonHasNoArea(p: Polygon)
    requires forall i, j :: 0 <= i < |p| && 0 <= j < |p| ==> DistSq(p[i], p[j]) <= 1
    ensures TwiceSignedArea(p) == 0
  {
    if |p| > 0 {
      var o := p[0];
      TwiceSignedAreaTranslate(p, o);
      var q := Translate(p + [p[0]], o);
      assert TwiceSignedArea(p) == ChainCross(q) by {
        var t := Translate(p, o);
        assert t + [t[0]] == q;
      }
      forall i, j | 0 <= i < |q| && 0 <= j < |q|
        ensures Norm2(q[i]) <= 1 && DistSq(q[i], q[j]) <= 1
      {
        TinyClosedChain(p, i, j);
      }
      TinyChainHasNoArea(q);
    }
  }

  // ---------------------------------------------------------------------
  // Convexity (isContourConvex)

  /** The turn at vertex i: the cross product of the edge arriving at p[i]
      and the edge leaving it, with wrap-around. */
  function Turn(p: Polygon, i: int): int
    requires 0 <= i < |p|
  {
    var n := |p|;
    Cross(Sub(p[i], p[(i + n - 1) % n]), Sub(p[(i + 1) % n], p[i]))
  }

  /** Strictly convex: every turn has the same non-zero sign. A zero turn
      (a repeated vertex or three collinear ones) makes it not convex, and
      so does an empty polygon. */
  predicate IsConvex(p: Polygon) {
    && |p| > 0
    && ((forall i :: 0 <= i < |p| ==> Turn(p, i) > 0) || (forall i :: 0 <= i < |p| ==> Turn(p, i) < 0))
  }

  /** The four turns of a quadrilateral, written out. */
  lemma QuadrilateralTurns(a: Point, b: Point, c: Point, d: Point)
    ensures Turn([a, b, c, d], 0) == Cross(Sub(a, d), Sub(b, a))
    ensures Turn([a, b, c, d], 1) == Cross(Sub(b, a), Sub(c, b))
    ensures Turn([a, b, c, d], 2) == Cross(Sub(c, b), Sub(d, c))
    ensures Turn([a, b, c, d], 3) == Cross(Sub(d, c), Sub(a, d))
  {
  }

  /** A quadrilateral turning the same way at each of its four vertices is convex. */
  lemma ConvexQuadrilateral(a: Point, b: Point, c: Point, d: Point)
    requires var t := [Cross(Sub(a, d), Sub(b, a)), Cross(Sub(b, a), Sub(c, b)), Cross(Sub(c, b), Sub(d, c)), Cross(Sub(d, c), Sub(a, d))];
             (t[0] > 0 && t[1] > 0 && t[2] > 0 && t[3] > 0) || (t[0] < 0 && t[1] < 0 && t[2] < 0 && t[3] < 0)
    ensures IsConvex([a, b, c, d])
  {
    var p := [a, b, c, d];
    QuadrilateralTurns(a, b, c, d);
    if Turn(p, 0) > 0 {
      forall i | 0 <= i < |p|
        ensures Turn(p, i) > 0
      {
        assert i == 0 || i == 1 || i == 2 || i == 3;
      }
    } else {
      forall i | 0 <= i < |p|
        ensures Turn(p, i) < 0
      {
        assert i == 0 || i == 1 || i == 2 || i == 3;
      }
    }
  }

  /** The five turns of a pentagon, written out. */
  lemma PentagonTurns(a: Point, b: Point, c: Point, d: Point, e: Point)
    ensures Turn([a, b, c, d, e], 0) == Cross(Sub(a, e), Sub(b, a))
    ensures Turn([a, b, c, d, e], 1) == Cross(Sub(b, a), Sub(c, b))
    ensures Turn([a, b, c, d, e], 2) == Cross(Sub(c, b), Sub(d, c))
    ensures Turn([a, b, c, d, e], 3) == Cross(Sub(d, c), Sub(e, d))
    ensures Turn([a, b, c, d, e], 4) == Cross(Sub(e, d), Sub(a, e))
  {
  }

  /** A pentagon turning left at each of its five vertices is convex. */
  lemma ConvexPentagon(a: Point, b: Point, c: Point, d: Point, e: Point)
    requires Cross(Sub(a, e), Sub(b, a)) > 0 && Cross(Sub(b, a), Sub(c, b)) > 0 && Cross(Sub(c, b), Sub(d, c)) > 0
    requires Cross(Sub(d, c), Sub(e, d)) > 0 && Cross(Sub(e, d), Sub(a, e)) > 0
    ensures IsConvex([a, b, c, d, e])
  {
    var p := [a, b, c, d, e];
    PentagonTurns(a, b, c, d, e);
    forall i | 0 <= i < |p|
      ensures Turn(p, i) > 0
    {
      assert i == 0 || i == 1 || i == 2 || i == 3 || i == 4;
    }
  }

  /** The shoelace sum of a quadrilateral, written out. */
  lemma ShoelaceQuadrilateral(a: Point, b: Point, c: Point, d: Point)
    ensures TwiceSignedArea([a, b, c, d]) == Cross(a, b) + Cross(b, c) + Cross(c, d) + Cross(d, a)
  {
    assert [a, b, c, d] + [a] == [a, b, c, d, a];
    assert [a, b, c, d, a][1..] == [b, c, d, a];
    assert [b, c, d, a][1..] == [c, d, a];
    assert [c, d, a][1..] == [d, a];
    assert [d, a][1..] == [a];
    assert ChainCross([d, a]) == Cross(d, a);
    assert ChainCross([c, d, a]) == Cross(c, d) + Cross(d, a);
    assert ChainCross([b, c, d, a]) == Cross(b, c) + Cross(c, d) + Cross(d, a);
  }

  /** The shoelace sum of a pentagon, written out. */
  lemma ShoelacePentagon(a: Point, b: Point, c: Point, d: Point, e: Point)
    ensures TwiceSignedArea([a, b, c, d, e]) == Cross(a, b) + Cross(b, c) + Cross(c, d) + Cross(d, e) + Cross(e, a)
  {
    assert [a, b, c, d, e] + [a] == [a, b, c, d, e, a];
    assert [a, b, c, d, e, a][1..] == [b, c, d, e, a];
    assert [b, c, d, e, a][1..] == [c, d, e, a];
    assert [c, d, e, a][1..] == [d, e, a];
    assert [d, e, a][1..] == [e, a];
    assert [e, a][1..] == [a];
    assert ChainCross([e, a]) == Cross(e, a);
    assert ChainCross([d, e, a]) == Cross(d, e) + Cross(e, a);
    assert ChainCross([c, d, e, a]) == Cross(c, d) + Cross(d, e) + Cross(e, a);
    assert ChainCross([b, c, d, e, a]) == Cross(b, c) + Cross(c, d) + Cross(d, e) + Cross(e, a);
  }

  /** Fewer than three vertices never make a convex polygon. */
  lemma DegenerateIsNotConvex(p: Polygon)
    requires |p| < 3
    ensures !IsConvex(p)
  {
    if |p| > 0 {
      assert Turn(p, 0) == 0;
    }
  }

  // ---------------------------------------------------------------------
  // The cosine of getCosAlKashi

  /** The value getCosAlKashi returns, kept exact. Ratio(num, den2) stands
      for num / sqrt(den2), where num is |CA|^2 + |CB|^2 - |AB|^2 and den2 is
      (2 |CA| |CB|)^2. NaN stands for the 0/0 computed when A or B coincides
      with the apex C (then |AB| == |CB| or |AB| == |CA|, so the numerator is 0
      as well). */
  datatype Cosine = NaN | Ratio(num: int, den2: int)

  /** The cosine of the angle at apex c between the rays towards a and b,
      by the law of cosines; undefined (NaN) exactly when an edge at the
      apex has length zero, i.e. when a or b coincides with c. */
  function CosAlKashi(a: Point, b: Point, c: Point): (r: Cosine)
    ensures r.Ratio? <==> a != c && b != c
    ensures r.Ratio? ==> r.den2 > 0
  {
    var ca2 := DistSq(a, c);
    var cb2 := DistSq(b, c);
    var ab2 := DistSq(b, a);
    if a == c || b == c then NaN
    else
      NonZeroNorm(a, c);
      NonZeroNorm(b, c);
      PositiveProduct(ca2, cb2);
      Ratio(ca2 + cb2 - ab2, 4 * ca2 * cb2)
  }

  lemma NonZeroNorm(a: Point, c: Point)
    requires a != c
    ensures DistSq(a, c) > 0
  {
    var dx, dy := a.x - c.x, a.y - c.y;
    assert dx != 0 || dy != 0;
    SquareAtLeastAbs(dx);
    SquareAtLeastAbs(dy);
    assert DistSq(a, c) == dx * dx + dy * dy;
  }

  lemma PositiveProduct(x: int, y: int)
    requires x > 0 && y > 0
    ensures 4 * x * y > 0
  {
  }

  /** The law of cosines: the numerator of getCosAlKashi is twice the dot
      product of CA and CB, and its denominator is (2 |CA| |CB|)^2. */
  lemma LawOfCosines(a: Point, b: Point, c: Point)
    requires a != c && b != c
    ensures CosAlKashi(a, b, c).num == 2 * Dot(Sub(a, c), Sub(b, c))
    ensures CosAlKashi(a, b, c).den2 == 4 * (Norm2(Sub(a, c)) * Norm2(Sub(b, c)))
  {
    var u, w := Sub(a, c), Sub(b, c);
    assert Sub(b, a) == Sub(w, u);
    assert Norm2(Sub(w, u)) == Norm2(u) + Norm2(w) - 2 * Dot(u, w);
  }

  /** v is the real number that the cosine c stands for: v = num / sqrt(den2),
      characterised without a square root by v^2 * den2 == num^2 and by v
      having the sign of num. */
  ghost predicate Denotes(c: Cosine, v: real) {
    && c.Ratio?
    && c.den2 > 0
    && v * v * (c.den2 as real) == (c.num * c.num) as real
    && (v >= 0.0 <==> c.num >= 0)
  }

  function Abs(v: real): real {
    if v < 0.0 then -v else v
  }

  /** On the non-negative reals, squaring is strictly increasing. */
  lemma SquareMonotone(v: real, w: real)
    requires v >= 0.0 && w >= 0.0
    ensures v < w <==> v * v < w * w
  {
    if v + w > 0.0 {
      assert w * w - v * v == (w - v) * (w + v);
      ScaleMonotone(0.0, w - v, w + v);
    }
  }

  /** Multiplying by a positive real keeps the order. */
  lemma ScaleMonotone(x: real, y: real, d: real)
    requires d > 0.0
    ensures x < y <==> x * d < y * d
  {
    assert y * d - x * d == (y - x) * d;
  }

  /** v * v * den == k with a positive den pins v down up to its sign. */
  lemma SquareRootUnique(k: int, den: int, v: real, w: real)
    requires den > 0
    requires v * v * (den as real) == k as real
    requires w * w * (den as real) == k as real
    requires v >= 0.0 <==> w >= 0.0
    ensures v == w
  {
    var d := den as real;
    ScaleMonotone(v * v, w * w, d);
    ScaleMonotone(w * w, v * v, d);
    assert Abs(v) * Abs(v) == v * v && Abs(w) * Abs(w) == w * w;
    SquareMonotone(Abs(v), Abs(w));
    SquareMonotone(Abs(w), Abs(v));
  }

  /** A cosine denotes at most one real. */
  lemma DenotesUnique(c: Cosine, v: real, w: real)
    requires Denotes(c, v) && Denotes(c, w)
    ensures v == w
  {
    SquareRootUnique(c.num * c.num, c.den2, v, w);
  }

  /** The source's test `cos < 0.1 && cos > -0.1`, decided exactly on the
      integers: |num / sqrt(den2)| < 1/10 exactly when 100 num^2 < den2. A NaN
      fails every comparison. */
  predicate InBand(c: Cosine) {
    c.Ratio? && 100 * c.num * c.num < c.den2
  }

  /** The exact integer band test agrees with the real-valued one. */
  lemma InBandExact(c: Cosine, v: real)
    requires Denotes(c, v)
    ensures InBand(c) <==> -0.1 < v < 0.1
  {
    var k := c.num * c.num;
    assert 100 * c.num * c.num == 100 * k;
    BandReal(k, c.den2, v);
  }

  /** For v * v * den == k with den > 0: 100 k < den exactly when |v| < 1/10. */
  lemma BandReal(k: int, den: int, v: real)
    requires den > 0
    requires v * v * (den as real) == k as real
    ensures 100 * k < den <==> -0.1 < v < 0.1
  {
    var d := den as real;
    var sq := v * v;
    assert 100 * k < den <==> 100.0 * (k as real) < d;
    assert 100.0 * (k as real) == (100.0 * sq) * d;
    ScaleMonotone(100.0 * sq, 1.0, d);
    assert 100 * k < den <==> sq < 0.01;
    assert Abs(v) * Abs(v) == sq;
    SquareMonotone(Abs(v), 0.1);
  }

  /** For v * v * den == k with 0 < den and k <= den: |v| <= 1. */
  lemma UnitReal(k: int, den: int, v: real)
    requires den > 0
    requires v * v * (den as real) == k as real
    requires k <= den
    ensures -1.0 <= v <= 1.0
  {
    var d := den as real;
    var sq := v * v;
    ScaleMonotone(1.0, sq, d);
    assert Abs(v) * Abs(v) == sq;
    SquareMonotone(1.0, Abs(v));
  }

  /** Lagrange's identity for two integer vectors. */
  lemma Lagrange(a: int, b: int, c: int, d: int)
    ensures (a * a + b * b) * (c * c + d * d) == (a * c + b * d) * (a * c + b * d) + (a * d - b * c) * (a * d - b * c)
  {
  }

  /** Cauchy-Schwarz on integer vectors. */
  lemma CauchySchwarz(u: Point, v: Point)
    ensures Dot(u, v) * Dot(u, v) <= Norm2(u) * Norm2(v)
  {
    Lagrange(u.x, u.y, v.x, v.y);
    SquareAtLeastAbs(Cross(u, v));
  }

  /** Whenever getCosAlKashi is defined, its value lies in [-1, 1]. */
  lemma CosAlKashiBounded(a: Point, b: Point, c: Point, v: real)
    requires Denotes(CosAlKashi(a, b, c), v)
    ensures -1.0 <= v <= 1.0
  {
    var r := CosAlKashi(a, b, c);
    LawOfCosines(a, b, c);
    CauchySchwarz(Sub(a, c), Sub(b, c));
    NumeratorBound(r.num, r.den2, Dot(Sub(a, c), Sub(b, c)), Norm2(Sub(a, c)) * Norm2(Sub(b, c)));
    UnitReal(r.num * r.num, r.den2, v);
  }

  lemma NumeratorBound(num: int, den2: int, dot: int, p: int)
    requires num == 2 * dot && den2 == 4 * p && dot * dot <= p
    ensures num * num <= den2
  {
    assert num * num == 4 * (dot * dot);
  }

  /** getCosAlKashi does not depend on the order of its first two arguments. */
  lemma CosAlKashiSymmetric(a: Point, b: Point, c: Point)
    ensures CosAlKashi(a, b, c) == CosAlKashi(b, a, c)
  {
    assert DistSq(b, a) == DistSq(a, b);
  }

  lemma BandScale(num: int, den2: int, dot: int, p: int)
    requires num == 2 * dot && den2 == 4 * p
    ensures 100 * num * num < den2 <==> 100 * dot * dot < p
  {
    assert 100 * num * num == 4 * (100 * dot * dot);
  }

  /** The band test on getCosAlKashi is the integer inequality
      100 dot(CA, CB)^2 < |CA|^2 |CB|^2, for edges of non-zero length. */
  lemma InBandIffDot(a: Point, b: Point, c: Point)
    ensures InBand(CosAlKashi(a, b, c)) <==>
              a != c && b != c &&
              100 * Dot(Sub(a, c), Sub(b, c)) * Dot(Sub(a, c), Sub(b, c)) < Norm2(Sub(a, c)) * Norm2(Sub(b, c))
  {
    if a != c && b != c {
      var r := CosAlKashi(a, b, c);
      LawOfCosines(a, b, c);
      BandScale(r.num, r.den2, Dot(Sub(a, c), Sub(b, c)), Norm2(Sub(a, c)) * Norm2(Sub(b, c)));
    }
  }

  /** The angle at c between a and b is within the band around a right
      angle, stated on integers: both edges are non-zero and
      100 dot(CA, CB)^2 < |CA|^2 |CB|^2. */
  predicate NearlyPerpendicular(a: Point, b: Point, c: Point) {
    && a != c && b != c
    && 100 * Dot(Sub(a, c), Sub(b, c)) * Dot(Sub(a, c), Sub(b, c)) < Norm2(Sub(a, c)) * Norm2(Sub(b, c))
  }

  // ---------------------------------------------------------------------
  // Points given by their coordinates, with the arithmetic done by the caller

  /** The cross product of two points given by coordinates is t. */
  lemma CrossIs(ux: int, uy: int, vx: int, vy: int, t: int)
    requires t == ux * vy - uy * vx
    ensures Cross(Point(ux, uy), Point(vx, vy)) == t
  {
  }

  /** The turn at (qx, qy), coming from (px, py) and going on to (rx, ry),
      is t. */
  lemma CornerIs(px: int, py: int, qx: int, qy: int, rx: int, ry: int, t: int)
    requires t == (qx - px) * (ry - qy) - (qy - py) * (rx - qx)
    ensures Cross(Sub(Point(qx, qy), Point(px, py)), Sub(Point(rx, ry), Point(qx, qy))) == t
  {
  }

  /** The band test on getCosAlKashi for points given by coordinates. */
  lemma BandOf(x1: int, y1: int, x2: int, y2: int, x3: int, y3: int)
    ensures var ux, uy, vx, vy := x1 - x3, y1 - y3, x2 - x3, y2 - y3;
            var d := ux * vx + uy * vy;
            InBand(CosAlKashi(Point(x1, y1), Point(x2, y2), Point(x3, y3))) <==>
              (ux != 0 || uy != 0) && (vx != 0 || vy != 0) && 100 * d * d < (ux * ux + uy * uy) * (vx * vx + vy * vy)
  {
    InBandIffDot(Point(x1, y1), Point(x2, y2), Point(x3, y3));
  }

  /** The same, where d is the dot product of the two edges from the apex
      (x3, y3) and n1, n2 are their squared lengths. */
  lemma BandIs(x1: int, y1: int, x2: int, y2: int, x3: int, y3: int, d: int, n1: int, n2: int)
    requires d == (x1 - x3) * (x2 - x3) + (y1 - y3) * (y2 - y3)
    requires n1 == (x1 - x3) * (x1 - x3) + (y1 - y3) * (y1 - y3)
    requires n2 == (x2 - x3) * (x2 - x3) + (y2 - y3) * (y2 - y3)
    ensures InBand(CosAlKashi(Point(x1, y1), Point(x2, y2), Point(x3, y3))) <==> n1 != 0 && n2 != 0 && 100 * d * d < n1 * n2
  {
    BandOf(x1, y1, x2, y2, x3, y3);
  }
}
