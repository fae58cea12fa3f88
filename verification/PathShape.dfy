/** What the chart line (frontend/lib/chart.ts) looks like where the limiter has no work, and where it has. */
module PathShape {
  import opened MonotonePath

  // ---------------------------------------------------------------- tangents that are kept

  /** The tangents wanted are what averaging the neighbouring chords gives, and every pair of them lies in the circle. */
  ghost predicate Kept(m: seq<real>, wanted: seq<real>) {
    && |m| >= 2 && |wanted| == |m| + 1 && wanted[0] == m[0] && wanted[|m|] == m[|m| - 1]
    && (forall i :: 0 < i < |m| ==> MeanOrFlat(m[i - 1], m[i], wanted[i]))
    && (forall i :: 0 <= i < |m| ==> Settled(m[i], wanted[i], wanted[i + 1]))
  }

  /** Between chords of the same direction the mean of their slopes; at a turning point, or beside a flat chord, zero. */
  predicate MeanOrFlat(before: real, after: real, t: real) {
    if (before > 0.0 && after > 0.0) || (before < 0.0 && after < 0.0) then 2.0 * t == before + after else t == 0.0
  }

  lemma ProductSign(x: real, y: real)
    ensures x * y <= 0.0 <==> !((x > 0.0 && y > 0.0) || (x < 0.0 && y < 0.0))
  {
    if x * y > 0.0 { SignOfProduct(x, y); }
    if x > 0.0 && y > 0.0 { assert x * y > 0.0; }
    if x < 0.0 && y < 0.0 { assert x * y == (-x) * (-y) && (-x) * (-y) > 0.0; }
  }

  lemma InitialIsWanted(m: seq<real>, wanted: seq<real>, i: nat)
    requires Kept(m, wanted) && i <= |m|
    ensures InitialTangent(m, i) == wanted[i]
  {
    if 0 < i < |m| {
      assert MeanOrFlat(m[i - 1], m[i], wanted[i]);
      ProductSign(m[i - 1], m[i]);
    }
  }

  lemma AllWanted(m: seq<real>, wanted: seq<real>)
    requires Kept(m, wanted)
    ensures InitialTangents(m) == wanted
    ensures forall i :: 0 <= i < |m| ==> Settled(m[i], InitialTangent(m, i), InitialTangent(m, i + 1))
  {
    forall i | 0 <= i <= |m| ensures InitialTangent(m, i) == wanted[i] { InitialIsWanted(m, wanted, i); }
  }

  /** The path is drawn with them. */
  lemma DrawnAsWanted(sqrt: real -> real, pts: seq<Pt>, wanted: seq<real>)
    requires |pts| >= 3 && Kept(Slopes(pts), wanted)
    ensures PathThrough(sqrt, pts) == Curve(Cubics(pts, wanted))
  {
    AllWanted(Slopes(pts), wanted);
    LimiterKeepsSettledData(sqrt, Slopes(pts), |pts| - 1);
  }

  // ---------------------------------------------------------------- a straight line

  predicate OnLine(a: real, b: real, p: Pt) { p.y == a + Mul(b, p.x) }

  lemma SlopeOnLine(a: real, b: real, p: Pt, q: Pt)
    requires OnLine(a, b, p) && OnLine(a, b, q) && p.x != q.x
    ensures Slope(p, q) == b && q.y - p.y == Mul(b, q.x - p.x)
  {
    var dx, dy := q.x - p.x, q.y - p.y;
    assert dy == Mul(b, dx);
    Divided(dy, dx, b);
  }

  lemma Divided(dy: real, dx: real, b: real)
    requires dx != 0.0 && dy == Mul(b, dx)
    ensures dy / dx == b
  {
    var q := dy / dx;
    assert q * dx == dy;
    assert (q - b) * dx == 0.0;
    if q != b { NonZeroProduct(q - b, dx); }
  }

  lemma NonZeroProduct(x: real, y: real)
    requires x != 0.0 && y != 0.0
    ensures x * y != 0.0
  {
  }

  /** Every point that the cubic draws lies on the line. */
  ghost predicate DrawnOnLine(a: real, b: real, c: Cubic) {
    forall s :: OnLine(a, b, Pt(XAt(c, s), YAt(c, s)))
  }

  lemma SlopesOnLine(pts: seq<Pt>, a: real, b: real)
    requires |pts| >= 3 && AllOnLine(pts, a, b)
    ensures forall k :: 0 <= k < |Slopes(pts)| ==> Slopes(pts)[k] == b
  {
    forall k | 0 <= k < |Slopes(pts)| ensures Slopes(pts)[k] == b { SlopeOnLine(a, b, pts[k], pts[k + 1]); }
  }

  function Constant(n: nat, b: real): (t: seq<real>)
    ensures |t| == n && forall k :: 0 <= k < n ==> t[k] == b
  {
    seq(n, k => b)
  }

  lemma ConstantIsKept(m: seq<real>, b: real)
    requires |m| >= 2 && forall k :: 0 <= k < |m| ==> m[k] == b
    ensures Kept(m, Constant(|m| + 1, b))
  {
    SettledOnLine(b);
  }

  ghost predicate AllOnLine(pts: seq<Pt>, a: real, b: real) {
    (forall k :: 0 <= k < |pts| ==> OnLine(a, b, pts[k])) && forall k :: 0 <= k < |pts| - 1 ==> pts[k].x != pts[k + 1].x
  }

  lemma LineIsKept(pts: seq<Pt>, a: real, b: real)
    requires |pts| >= 3 && AllOnLine(pts, a, b)
    ensures Kept(Slopes(pts), Constant(|pts|, b))
  {
    SlopesOnLine(pts, a, b);
    ConstantIsKept(Slopes(pts), b);
  }

  lemma LineSegment(sqrt: real -> real, pts: seq<Pt>, b: real, i: nat)
    requires |pts| >= 3 && i < |pts| - 1 && Kept(Slopes(pts), Constant(|pts|, b))
    ensures PathThrough(sqrt, pts).cubics[i] == Segment(pts[i], pts[i + 1], b, b)
  {
    DrawnAsWanted(sqrt, pts, Constant(|pts|, b));
  }

  /** Points on one line are drawn as that line. */
  lemma LinesAreDrawnAsLines(sqrt: real -> real, pts: seq<Pt>, a: real, b: real, i: nat)
    requires |pts| >= 3 && i < |pts| - 1 && AllOnLine(pts, a, b)
    ensures DrawnOnLine(a, b, PathThrough(sqrt, pts).cubics[i])
  {
    LineIsKept(pts, a, b);
    LineSegment(sqrt, pts, b, i);
    LinePiece(pts, a, b, i);
  }

  lemma LinePiece(pts: seq<Pt>, a: real, b: real, i: nat)
    requires i + 1 < |pts| && AllOnLine(pts, a, b)
    ensures DrawnOnLine(a, b, Segment(pts[i], pts[i + 1], b, b))
  {
    SlopeOnLine(a, b, pts[i], pts[i + 1]);
    PieceOnLine(a, b, pts[i], pts[i + 1]);
  }

  lemma SettledOnLine(b: real)
    ensures Settled(b, b, b)
  {
  }

  lemma PieceOnLine(a: real, b: real, p: Pt, q: Pt)
    requires OnLine(a, b, p) && q.y - p.y == Mul(b, q.x - p.x)
    ensures DrawnOnLine(a, b, Segment(p, q, b, b))
  {
    forall s ensures OnLine(a, b, Pt(XAt(Segment(p, q, b, b), s), YAt(Segment(p, q, b, b), s))) {
      PointOnLine(a, b, p, q, s);
    }
  }

  lemma PointOnLine(a: real, b: real, p: Pt, q: Pt, s: real)
    requires OnLine(a, b, p) && q.y - p.y == Mul(b, q.x - p.x)
    ensures OnLine(a, b, Pt(XAt(Segment(p, q, b, b), s), YAt(Segment(p, q, b, b), s)))
  {
    var dx := q.x - p.x;
    var dy := Mul(b, dx);
    EvenBezier(p.x, dx, s);
    EvenBezier(p.y, dy, s);
    assert XAt(Segment(p, q, b, b), s) == p.x + Mul(s, dx);
    assert YAt(Segment(p, q, b, b), s) == p.y + Mul(s, dy);
    Along(a, b, p.x, s, dx);
  }

  lemma Along(a: real, b: real, x: real, s: real, dx: real)
    ensures a + Mul(b, x) + Mul(s, Mul(b, dx)) == a + Mul(b, x + Mul(s, dx))
  {
  }

  // ---------------------------------------------------------------- a parabola

  predicate OnParabola(a: real, b: real, c: real, p: Pt) { p.y == Mul(a, Mul(p.x, p.x)) + Mul(b, p.x) + c }

  /** The derivative of the parabola. */
  function Derivative(a: real, b: real, x: real): real { 2.0 * Mul(a, x) + b }

  lemma SlopeOnParabola(a: real, b: real, c: real, p: Pt, q: Pt)
    requires OnParabola(a, b, c, p) && OnParabola(a, b, c, q) && p.x != q.x
    ensures Slope(p, q) == Mul(a, p.x + q.x) + b
  {
    ParabolaRise(a, b, c, p.x, q.x);
    Divided(q.y - p.y, q.x - p.x, Mul(a, p.x + q.x) + b);
  }

  lemma ParabolaRise(a: real, b: real, c: real, x: real, z: real)
    ensures Mul(a, Mul(z, z)) + Mul(b, z) + c - (Mul(a, Mul(x, x)) + Mul(b, x) + c) == Mul(Mul(a, x + z) + b, z - x)
  {
    assert Mul(z, z) - Mul(x, x) == Mul(x + z, z - x);
    assert Mul(a, Mul(z, z)) - Mul(a, Mul(x, x)) == Mul(a, Mul(z, z) - Mul(x, x));
    assert Mul(a, Mul(x + z, z - x)) == Mul(Mul(a, x + z), z - x);
    assert Mul(b, z) - Mul(b, x) == Mul(b, z - x);
    assert Mul(Mul(a, x + z) + b, z - x) == Mul(Mul(a, x + z), z - x) + Mul(b, z - x);
  }

  /** Evenly spaced points on a parabola that does not turn between them. */
  predicate Sampled(pts: seq<Pt>, a: real, b: real, c: real, h: real) {
    && h > 0.0 && (forall k :: 0 <= k < |pts| ==> OnParabola(a, b, c, pts[k]))
    && (forall k :: 0 <= k < |pts| - 1 ==> pts[k + 1].x == pts[k].x + h)
    && (|| (forall k :: 0 <= k < |pts| - 1 ==> pts[k].y < pts[k + 1].y)
        || (forall k :: 0 <= k < |pts| - 1 ==> pts[k].y > pts[k + 1].y))
  }

  /** The slopes that fit such points: the parabola's at inner points, the chord's at the ends. */
  function Fitting(pts: seq<Pt>, a: real, b: real): (t: seq<real>)
    requires |pts| >= 3
    ensures |t| == |pts|
  {
    seq(|pts|, i requires 0 <= i < |pts| =>
      if i == 0 then Slope(pts[0], pts[1])
      else if i == |pts| - 1 then Slope(pts[i - 1], pts[i])
      else Derivative(a, b, pts[i].x))
  }

  /** They lie in the circles. */
  ghost predicate Gentle(pts: seq<Pt>, t: seq<real>)
    requires |t| == |pts|
  {
    forall i :: 0 <= i < |pts| - 1 ==> Settled(Slope(pts[i], pts[i + 1]), t[i], t[i + 1])
  }

  /** If they do, the path is drawn with them: at every inner point the curve has the derivative of the parabola. */
  lemma ParabolasKeepTheirSlopes(sqrt: real -> real, pts: seq<Pt>, a: real, b: real, c: real, h: real)
    requires |pts| >= 3 && Sampled(pts, a, b, c, h) && Gentle(pts, Fitting(pts, a, b))
    ensures PathThrough(sqrt, pts) == Curve(Cubics(pts, Fitting(pts, a, b)))
  {
    AllMeans(pts, a, b, c, h);
    FittingIsKept(pts, a, b);
    DrawnAsWanted(sqrt, pts, Fitting(pts, a, b));
  }

  /** The line from one point to the other has this slope. */
  predicate HasSlope(p: Pt, q: Pt, t: real) { q.y - p.y == Mul(t, q.x - p.x) }

  /** In terms of the control points: on both sides of an inner point the curve has the derivative of the parabola. */
  lemma ParabolaDirections(sqrt: real -> real, pts: seq<Pt>, a: real, b: real, c: real, h: real, i: nat)
    requires 0 < i < |pts| - 1 && Sampled(pts, a, b, c, h) && Gentle(pts, Fitting(pts, a, b))
    ensures var cs := PathThrough(sqrt, pts).cubics;
            && HasSlope(pts[i], cs[i].c1, Derivative(a, b, pts[i].x))
            && HasSlope(cs[i - 1].c2, pts[i], Derivative(a, b, pts[i].x))
  {
    ParabolasKeepTheirSlopes(sqrt, pts, a, b, c, h);
    CubicsHaveSlopes(sqrt, pts, Fitting(pts, a, b), i);
    CubicsHaveSlopes(sqrt, pts, Fitting(pts, a, b), i - 1);
  }

  lemma CubicsHaveSlopes(sqrt: real -> real, pts: seq<Pt>, t: seq<real>, i: nat)
    requires |pts| >= 3 && |t| == |pts| && i + 1 < |pts| && PathThrough(sqrt, pts) == Curve(Cubics(pts, t))
    ensures var c := PathThrough(sqrt, pts).cubics[i]; HasSlope(pts[i], c.c1, t[i]) && HasSlope(c.c2, pts[i + 1], t[i + 1])
  {
    SegmentHasSlopes(pts[i], pts[i + 1], t[i], t[i + 1]);
  }

  lemma SegmentHasSlopes(p: Pt, q: Pt, t0: real, t1: real)
    ensures var c := Segment(p, q, t0, t1); HasSlope(p, c.c1, t0) && HasSlope(c.c2, q, t1)
  {
    Third(t0, q.x - p.x);
    Third(t1, q.x - p.x);
    assert q.x - (q.x - (q.x - p.x) / 3.0) == (q.x - p.x) / 3.0;
  }

  lemma Third(t: real, dx: real)
    ensures Mul(t, dx) / 3.0 == Mul(t, dx / 3.0)
  {
  }

  /** The derivative is the mean of the chords, wherever there is no turn. */
  ghost predicate MeansFit(pts: seq<Pt>, a: real, b: real) {
    forall i :: 0 < i < |pts| - 1
      ==> MeanOrFlat(Slope(pts[i - 1], pts[i]), Slope(pts[i], pts[i + 1]), Derivative(a, b, pts[i].x))
  }

  lemma AllMeans(pts: seq<Pt>, a: real, b: real, c: real, h: real)
    requires Sampled(pts, a, b, c, h)
    ensures MeansFit(pts, a, b)
  {
    forall i | 0 < i < |pts| - 1
      ensures MeanOrFlat(Slope(pts[i - 1], pts[i]), Slope(pts[i], pts[i + 1]), Derivative(a, b, pts[i].x))
    {
      MeanIsDerivative(pts, a, b, c, h, i);
    }
  }

  lemma FittingIsKept(pts: seq<Pt>, a: real, b: real)
    requires |pts| >= 3 && MeansFit(pts, a, b) && Gentle(pts, Fitting(pts, a, b))
    ensures Kept(Slopes(pts), Fitting(pts, a, b))
  {
    FittingMeans(pts, a, b);
    FittingSettles(pts, Fitting(pts, a, b));
  }

  lemma FittingMeans(pts: seq<Pt>, a: real, b: real)
    requires |pts| >= 3 && MeansFit(pts, a, b)
    ensures var m, t := Slopes(pts), Fitting(pts, a, b); forall i :: 0 < i < |m| ==> MeanOrFlat(m[i - 1], m[i], t[i])
  {
    var m, t := Slopes(pts), Fitting(pts, a, b);
    forall i | 0 < i < |m| ensures MeanOrFlat(m[i - 1], m[i], t[i]) {
      assert m[i - 1] == Slope(pts[i - 1], pts[i]) && m[i] == Slope(pts[i], pts[i + 1]);
    }
  }

  lemma FittingSettles(pts: seq<Pt>, t: seq<real>)
    requires |pts| >= 3 && |t| == |pts| && Gentle(pts, t)
    ensures var m := Slopes(pts); forall i :: 0 <= i < |m| ==> Settled(m[i], t[i], t[i + 1])
  {
    forall i | 0 <= i < |Slopes(pts)| ensures Settled(Slopes(pts)[i], t[i], t[i + 1]) {
      assert Slopes(pts)[i] == Slope(pts[i], pts[i + 1]);
    }
  }

  lemma MeanIsDerivative(pts: seq<Pt>, a: real, b: real, c: real, h: real, i: nat)
    requires Sampled(pts, a, b, c, h) && 0 < i < |pts| - 1
    ensures MeanOrFlat(Slope(pts[i - 1], pts[i]), Slope(pts[i], pts[i + 1]), Derivative(a, b, pts[i].x))
  {
    var p, q, r := pts[i - 1], pts[i], pts[i + 1];
    SlopeOnParabola(a, b, c, p, q);
    SlopeOnParabola(a, b, c, q, r);
    MeanOfChords(a, b, q.x, h);
    RiseAndSlope(p, q);
    RiseAndSlope(q, r);
  }

  lemma MeanOfChords(a: real, b: real, x: real, h: real)
    ensures Mul(a, x - h + x) + b + (Mul(a, x + (x + h)) + b) == 2.0 * Derivative(a, b, x)
  {
    assert Mul(a, x - h + x) + Mul(a, x + (x + h)) == 4.0 * Mul(a, x);
  }

  lemma RiseAndSlope(p: Pt, q: Pt)
    requires p.x < q.x
    ensures p.y < q.y ==> Slope(p, q) > 0.0
    ensures p.y > q.y ==> Slope(p, q) < 0.0
  {
    var dx, dy := q.x - p.x, q.y - p.y;
    var s := dy / dx;
    assert s * dx == dy;
    SignTimes(s, dx);
  }

  lemma SignTimes(s: real, dx: real)
    requires dx > 0.0
    ensures s > 0.0 <==> s * dx > 0.0
    ensures s < 0.0 <==> s * dx < 0.0
  {
    if s > 0.0 { assert s * dx > 0.0; }
    if s < 0.0 { assert (-s) * dx > 0.0; }
  }

  // ---------------------------------------------------------------- flat and vertical chords

  lemma FlatMeansZero(m: real, t0: real, t1: real)
    requires m == 0.0 && Settled(m, t0, t1)
    ensures t0 == 0.0 && t1 == 0.0
  {
    assert 9.0 * Sq(0.0) == 0.0;
  }

  lemma FlatSlope(p: Pt, q: Pt)
    requires p.y == q.y || p.x == q.x
    ensures Slope(p, q) == 0.0
  {
  }

  lemma SettledPair(sqrt: real -> real, pts: seq<Pt>, i: nat) returns (m: real, t0: real, t1: real)
    requires IsSqrt(sqrt) && |pts| >= 3 && i + 1 < |pts|
    ensures m == Slope(pts[i], pts[i + 1]) && t0 == Tangents(sqrt, pts)[i] && t1 == Tangents(sqrt, pts)[i + 1]
    ensures Settled(m, t0, t1)
  {
    TangentsSettle(sqrt, pts, i);
    m, t0, t1 := Slope(pts[i], pts[i + 1]), Tangents(sqrt, pts)[i], Tangents(sqrt, pts)[i + 1];
  }

  lemma FlatTangents(sqrt: real -> real, pts: seq<Pt>, i: nat)
    requires IsSqrt(sqrt) && |pts| >= 3 && i + 1 < |pts| && (pts[i].y == pts[i + 1].y || pts[i].x == pts[i + 1].x)
    ensures Tangents(sqrt, pts)[i] == 0.0 && Tangents(sqrt, pts)[i + 1] == 0.0
  {
    var m, t0, t1 := SettledPair(sqrt, pts, i);
    FlatSlope(pts[i], pts[i + 1]);
    FlatMeansZero(m, t0, t1);
  }

  /** The curve runs level on both sides of a segment. */
  ghost predicate LevelAround(cs: seq<Cubic>, p: Pt, q: Pt, i: nat) {
    && i < |cs| && cs[i].c1.y == p.y && cs[i].c2.y == q.y
    && (i > 0 ==> cs[i - 1].c2.y == p.y) && (i + 1 < |cs| ==> cs[i + 1].c1.y == q.y)
  }

  lemma ZeroTangentsAreLevel(pts: seq<Pt>, t: seq<real>, i: nat)
    requires |t| == |pts| && i + 1 < |pts| && t[i] == 0.0 && t[i + 1] == 0.0
    ensures LevelAround(Cubics(pts, t), pts[i], pts[i + 1], i)
  {
    assert forall dx :: Mul(0.0, dx) == 0.0;
  }

  /** Around a flat or a vertical chord the curve runs level. */
  lemma LevelAroundFlatChords(sqrt: real -> real, pts: seq<Pt>, i: nat)
    requires IsSqrt(sqrt) && |pts| >= 3 && i + 1 < |pts| && (pts[i].y == pts[i + 1].y || pts[i].x == pts[i + 1].x)
    ensures LevelAround(PathThrough(sqrt, pts).cubics, pts[i], pts[i + 1], i)
  {
    FlatTangents(sqrt, pts, i);
    ZeroTangentsAreLevel(pts, Tangents(sqrt, pts), i);
  }

  // ---------------------------------------------------------------- slopes that are too steep

  /** A pair of slopes outside the circle lands on it, in the same proportion and direction; a pair inside stays as it is. */
  lemma LandsOnCircle(sqrt: real -> real, m: real, t0: real, t1: real)
    requires IsSqrt(sqrt) && m != 0.0
    ensures var (u0, u1) := CutBack(sqrt, m, t0, t1);
            if Sq(t0) + Sq(t1) > 9.0 * Sq(m) then
              Sq(u0) + Sq(u1) == 9.0 * Sq(m) && Mul(u0, t1) == Mul(u1, t0) && Shrunk(t0, u0) && Shrunk(t1, u1)
            else (u0, u1) == (t0, t1)
  {
    var h := Spread(t0 / m, t1 / m);
    SpreadInChordUnits(m, t0, t1);
    InsideCircle(m, t0, t1, h);
    if h > 9.0 {
      var k := Factor(sqrt(h));
      ScaleFactor(sqrt(h), h);
      ScaledIsShrunk(k, t0);
      ScaledIsShrunk(k, t1);
      ScaledOntoCircle(Sq(m), t0, t1, h, k);
      SameRatio(k, t0, t1);
    }
  }

  lemma SameRatio(k: real, t0: real, t1: real)
    ensures Mul(Mul(k, t0), t1) == Mul(Mul(k, t1), t0)
  {
  }
}
