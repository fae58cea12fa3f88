/** The smooth chart line (monotonePath in frontend/lib/chart.ts). */
module MonotonePath {
  // The path through the points is a chain of Bezier cubics.  The slope ("tangent") at each point starts as an average of
  // the two neighbouring chords and is then cut back, segment by segment, so that no cubic leaves the band between its two
  // end points.  A tangent belongs to two segments, so cutting it back for one segment also changes the one before it: the
  // module shows that the cuts never break a segment that was already settled.

  datatype Pt = Pt(x: real, y: real)
  /** A Bezier cubic: its two ends and its two control points. */
  datatype Cubic = Cubic(p0: Pt, c1: Pt, c2: Pt, p1: Pt)
  datatype Path =
    | Empty
    | Dot(at: Pt)
    | Line(start: Pt, end: Pt)
    | Curve(cubics: seq<Cubic>)

  /** What the limiter needs from Math.sqrt. */
  ghost predicate IsSqrt(sqrt: real -> real) {
    forall h: real :: h > 9.0 ==> sqrt(h) > 0.0 && sqrt(h) * sqrt(h) == h
  }

  /** A product together with the sign rules the proofs below use. */
  function Mul(x: real, y: real): (r: real)
    ensures x >= 0.0 && y >= 0.0 ==> r >= 0.0
    ensures x <= 0.0 && y <= 0.0 ==> r >= 0.0
    ensures (x > 0.0 && y > 0.0) || (x < 0.0 && y < 0.0) ==> r > 0.0
  {
    x * y
  }

  function Sq(x: real): (r: real)
    ensures r >= 0.0 && (x != 0.0 ==> r > 0.0)
  {
    Mul(x, x)
  }

  // ---------------------------------------------------------------- the tangents

  /** Slope of the chord from p to q; a vertical chord counts as flat. */
  function Slope(p: Pt, q: Pt): real {
    if q.x - p.x == 0.0 then 0.0 else (q.y - p.y) / (q.x - p.x)
  }

  function Slopes(pts: seq<Pt>): (m: seq<real>)
    requires |pts| >= 1
    ensures |m| == |pts| - 1
  {
    seq(|pts| - 1, i requires 0 <= i < |pts| - 1 => Slope(pts[i], pts[i + 1]))
  }

  /** The slope at point i before limiting. */
  function InitialTangent(m: seq<real>, i: nat): real
    requires |m| >= 1 && i <= |m|
  {
    if i == 0 then m[0]
    else if i == |m| then m[|m| - 1]
    else if m[i - 1] * m[i] <= 0.0 then 0.0
    else (m[i - 1] + m[i]) / 2.0
  }

  function InitialTangents(m: seq<real>): (t: seq<real>)
    requires |m| >= 1
    ensures |t| == |m| + 1
  {
    seq(|m| + 1, i requires 0 <= i <= |m| => InitialTangent(m, i))
  }

  /** The limiter's rule for one segment with chord slope m and end slopes t0, t1: measured in units of the chord slope,
      a pair outside the circle of radius 3 is scaled onto it; on a flat chord both slopes become zero. */
  function CutBack(sqrt: real -> real, m: real, t0: real, t1: real): (real, real) {
    if m == 0.0 then (0.0, 0.0) else ScaleBack(sqrt, t0, t1, Spread(t0 / m, t1 / m))
  }

  function Spread(a: real, b: real): real { Sq(a) + Sq(b) }

  function ScaleBack(sqrt: real -> real, t0: real, t1: real, h: real): (real, real) {
    if h > 9.0 then (Mul(Factor(sqrt(h)), t0), Mul(Factor(sqrt(h)), t1)) else (t0, t1)
  }

  /** 3 / r, for the square root r of the squared length h. */
  function Factor(r: real): real {
    if r == 0.0 then 0.0 else 3.0 / r
  }

  /** One step of the limiter: the two tangents of segment i. */
  function LimitStep(sqrt: real -> real, m: seq<real>, t: seq<real>, i: nat): (t': seq<real>)
    requires i < |m| && |t| == |m| + 1
    ensures |t'| == |t|
  {
    var (u0, u1) := CutBack(sqrt, m[i], t[i], t[i + 1]);
    t[i := u0][i + 1 := u1]
  }

  /** The tangents after the first n segments have been limited. */
  function Limited(sqrt: real -> real, m: seq<real>, n: nat): (t: seq<real>)
    requires |m| >= 1 && n <= |m|
    ensures |t| == |m| + 1
  {
    if n == 0 then InitialTangents(m) else LimitStep(sqrt, m, Limited(sqrt, m, n - 1), n - 1)
  }

  /** The cubic from p to q whose slopes at its ends are t0 and t1. */
  function Segment(p: Pt, q: Pt, t0: real, t1: real): Cubic {
    var dx := q.x - p.x;
    Cubic(p, Pt(p.x + dx / 3.0, p.y + Mul(t0, dx) / 3.0), Pt(q.x - dx / 3.0, q.y - Mul(t1, dx) / 3.0), q)
  }

  function Cubics(pts: seq<Pt>, t: seq<real>): (cs: seq<Cubic>)
    requires |pts| >= 1 && |t| == |pts|
    ensures |cs| == |pts| - 1
  {
    seq(|pts| - 1, i requires 0 <= i < |pts| - 1 => Segment(pts[i], pts[i + 1], t[i], t[i + 1]))
  }

  function PathThrough(sqrt: real -> real, pts: seq<Pt>): Path {
    if |pts| == 0 then Empty
    else if |pts| == 1 then Dot(pts[0])
    else if |pts| == 2 then Line(pts[0], pts[1])
    else
      Curve(Cubics(pts, Tangents(sqrt, pts)))
  }

  function Tangents(sqrt: real -> real, pts: seq<Pt>): (t: seq<real>)
    requires |pts| >= 2
    ensures |t| == |pts|
  {
    Limited(sqrt, Slopes(pts), |pts| - 1)
  }

  // ---------------------------------------------------------------- the code

  method ChordSlopes(pts: seq<Pt>) returns (m: seq<real>)
    requires |pts| >= 1
    ensures m == Slopes(pts)
  {
    m := [];
    for i := 0 to |pts| - 1
      invariant m == Slopes(pts)[..i]
    {
      var dx, dy := pts[i + 1].x - pts[i].x, pts[i + 1].y - pts[i].y;
      m := m + [if dx == 0.0 then 0.0 else dy / dx];
    }
  }

  method AverageSlopes(m: seq<real>) returns (t: array<real>)
    requires |m| >= 1
    ensures fresh(t) && t[..] == InitialTangents(m)
  {
    t := new real[|m| + 1];
    t[0] := m[0];
    for i := 1 to |m|
      invariant forall j :: 0 <= j < i ==> t[j] == InitialTangent(m, j)
    {
      t[i] := if m[i - 1] * m[i] <= 0.0 then 0.0 else (m[i - 1] + m[i]) / 2.0;
    }
    t[|m|] := m[|m| - 1];
  }

  /** The limiter loop: it overwrites the array of tangents in place. */
  method LimitTangents(sqrt: real -> real, m: seq<real>, t: array<real>)
    requires IsSqrt(sqrt)
    requires |m| >= 1 && t.Length == |m| + 1
    requires t[..] == InitialTangents(m)
    modifies t
    ensures t[..] == Limited(sqrt, m, |m|)
  {
    for i := 0 to |m|
      invariant t[..] == Limited(sqrt, m, i)
    {
      t[i], t[i + 1] := LimitSegment(sqrt, m[i], t[i], t[i + 1]);
    }
  }

  /** The loop body: the new tangents of a segment with chord slope m. */
  method LimitSegment(sqrt: real -> real, m: real, t0: real, t1: real) returns (u0: real, u1: real)
    requires IsSqrt(sqrt)
    ensures (u0, u1) == CutBack(sqrt, m, t0, t1)
  {
    if m == 0.0 { return 0.0, 0.0; }
    var a, b := t0 / m, t1 / m;
    var h := a * a + b * b;
    assert h == Spread(a, b);
    if h > 9.0 {
      var k := 3.0 / sqrt(h);
      assert k == Factor(sqrt(Spread(a, b)));
      assert k * a * m == Mul(k, t0) && k * b * m == Mul(k, t1);
      return k * a * m, k * b * m;
    }
    return t0, t1;
  }

  method ControlPoints(pts: seq<Pt>, t: array<real>) returns (cubics: seq<Cubic>)
    requires |pts| >= 1 && t.Length == |pts|
    ensures cubics == Cubics(pts, t[..])
  {
    cubics := [];
    for i := 0 to |pts| - 1
      invariant cubics == Cubics(pts, t[..])[..i]
    {
      var c := Controls(pts[i], pts[i + 1], t[i], t[i + 1]);
      cubics := cubics + [c];
    }
  }

  /** The loop body: the control points of one segment. */
  method Controls(p: Pt, q: Pt, t0: real, t1: real) returns (c: Cubic)
    ensures c == Segment(p, q, t0, t1)
  {
    var dx := q.x - p.x;
    var c1 := Pt(p.x + dx / 3.0, p.y + Mul(t0, dx) / 3.0);
    var c2 := Pt(q.x - dx / 3.0, q.y - Mul(t1, dx) / 3.0);
    c := Cubic(p, c1, c2, q);
  }

  method Draw(sqrt: real -> real, pts: seq<Pt>) returns (path: Path)
    requires IsSqrt(sqrt)
    ensures path == PathThrough(sqrt, pts)
  {
    var n := |pts|;
    if n == 0 { return Empty; }
    if n == 1 { return Dot(pts[0]); }
    if n == 2 { return Line(pts[0], pts[1]); }
    var m := ChordSlopes(pts);
    var t := AverageSlopes(m);
    LimitTangents(sqrt, m, t);
    var cubics := ControlPoints(pts, t);
    path := Curve(cubics);
  }

  // ---------------------------------------------------------------- what the limiter achieves

  /** The slope t at an end of a segment points the same way as its chord, of slope m. */
  predicate Aligned(m: real, t: real) {
    (m >= 0.0 ==> t >= 0.0) && (m <= 0.0 ==> t <= 0.0)
  }

  /** ... and, measured against the chord, the two end slopes lie in the circle of radius 3. */
  predicate Settled(m: real, t0: real, t1: real) {
    Aligned(m, t0) && Aligned(m, t1) && Sq(t0) + Sq(t1) <= 9.0 * Sq(m)
  }

  /** after lies between zero and before: a slope that was only cut back. */
  predicate Shrunk(before: real, after: real) {
    (before >= 0.0 ==> 0.0 <= after <= before) && (before <= 0.0 ==> before <= after <= 0.0)
  }

  lemma SqOfProduct(x: real, y: real)
    ensures Sq(Mul(x, y)) == Mul(Sq(x), Sq(y))
  {
  }

  lemma ShrunkSquare(before: real, after: real)
    requires Shrunk(before, after)
    ensures Sq(after) <= Sq(before)
  {
    assert Sq(before) - Sq(after) == Mul(before - after, before + after);
  }

  /** A settled segment stays settled when either of its tangents is cut back further. */
  lemma SettledSurvivesShrinking(m: real, t0: real, t1: real, u0: real, u1: real)
    requires Settled(m, t0, t1) && Shrunk(t0, u0) && Shrunk(t1, u1)
    ensures Settled(m, u0, u1)
  {
    ShrunkSquare(t0, u0);
    ShrunkSquare(t1, u1);
  }

  /** In units of the chord slope m, the end slopes have squared length a^2 + b^2. */
  lemma ChordUnits(m: real, a: real, b: real)
    ensures Sq(Mul(a, m)) + Sq(Mul(b, m)) == Mul(Spread(a, b), Sq(m))
  {
    SqOfProduct(a, m);
    SqOfProduct(b, m);
  }

  /** k = 3 / sqrt(h) is below one, and k^2 h = 9. */
  lemma ScaleFactor(r: real, h: real)
    requires h > 9.0 && r > 0.0 && r * r == h
    ensures 0.0 < Factor(r) < 1.0 && Mul(Sq(Factor(r)), h) == 9.0
  {
    assert Sq(r) == h;
    assert Sq(3.0) - Sq(r) == Mul(3.0 - r, 3.0 + r);
    assert r > 3.0;
    var k := Factor(r);
    assert Mul(k, r) == 3.0;
    SqOfProduct(k, r);
    assert Sq(Mul(k, r)) == 9.0;
    assert Mul(k - 1.0, r) == Mul(k, r) - r;
  }

  lemma NegatedFactor(k: real, t: real)
    ensures Mul(k, -t) == -Mul(k, t)
  {
  }

  lemma ScaledIsShrunk(k: real, t: real)
    requires 0.0 <= k <= 1.0
    ensures Shrunk(t, Mul(k, t))
  {
    assert t - Mul(k, t) == Mul(1.0 - k, t);
    NegatedFactor(k, t);
    NegatedFactor(1.0 - k, t);
  }

  lemma ScaledSpread(k: real, a: real, b: real)
    ensures Spread(Mul(k, a), Mul(k, b)) == Mul(Sq(k), Spread(a, b))
  {
    SqOfProduct(k, a);
    SqOfProduct(k, b);
  }

  lemma Associate(x: real, y: real, z: real)
    ensures Mul(Mul(x, y), z) == Mul(x, Mul(y, z))
  {
  }

  lemma ScaledOntoCircle(mm: real, t0: real, t1: real, h: real, k: real)
    requires Spread(t0, t1) == Mul(h, mm) && Mul(Sq(k), h) == 9.0
    ensures Spread(Mul(k, t0), Mul(k, t1)) == 9.0 * mm
  {
    ScaledSpread(k, t0, t1);
    Associate(Sq(k), h, mm);
    assert Mul(9.0, mm) == 9.0 * mm;
  }

  /** Scaling a pair of squared length h (in chord units) by a k with k^2 h = 9 settles the segment. */
  lemma ScalingSettles(m: real, t0: real, t1: real, h: real, k: real)
    requires Aligned(m, t0) && Aligned(m, t1) && Spread(t0, t1) == Mul(h, Sq(m))
    requires 0.0 < k < 1.0 && Mul(Sq(k), h) == 9.0
    ensures Settled(m, Mul(k, t0), Mul(k, t1)) && Shrunk(t0, Mul(k, t0)) && Shrunk(t1, Mul(k, t1))
  {
    ScaledIsShrunk(k, t0);
    ScaledIsShrunk(k, t1);
    ScaledOntoCircle(Sq(m), t0, t1, h, k);
  }

  lemma InsideCircle(m: real, t0: real, t1: real, h: real)
    requires m != 0.0 && Spread(t0, t1) == Mul(h, Sq(m))
    ensures h <= 9.0 <==> Spread(t0, t1) <= 9.0 * Sq(m)
  {
    assert Mul(9.0, Sq(m)) == 9.0 * Sq(m);
    assert Mul(h - 9.0, Sq(m)) == Mul(h, Sq(m)) - 9.0 * Sq(m);
    assert Mul(9.0 - h, Sq(m)) == -Mul(h - 9.0, Sq(m));
  }

  lemma SpreadInChordUnits(m: real, t0: real, t1: real)
    requires m != 0.0
    ensures Spread(t0, t1) == Mul(Spread(t0 / m, t1 / m), Sq(m))
  {
    assert Mul(t0 / m, m) == t0 && Mul(t1 / m, m) == t1;
    ChordUnits(m, t0 / m, t1 / m);
  }

  /** The rule settles the segment it is applied to and only cuts back. */
  lemma CutBackSettles(sqrt: real -> real, m: real, t0: real, t1: real)
    requires IsSqrt(sqrt) && Aligned(m, t0) && Aligned(m, t1)
    ensures var (u0, u1) := CutBack(sqrt, m, t0, t1);
            Settled(m, u0, u1) && Shrunk(t0, u0) && Shrunk(t1, u1)
  {
    if m != 0.0 {
      var h := Spread(t0 / m, t1 / m);
      SpreadInChordUnits(m, t0, t1);
      ScaleBackSettles(sqrt, m, t0, t1, h);
    }
  }

  lemma ScaleBackSettles(sqrt: real -> real, m: real, t0: real, t1: real, h: real)
    requires IsSqrt(sqrt) && m != 0.0 && Aligned(m, t0) && Aligned(m, t1) && Spread(t0, t1) == Mul(h, Sq(m))
    ensures var (u0, u1) := ScaleBack(sqrt, t0, t1, h);
            Settled(m, u0, u1) && Shrunk(t0, u0) && Shrunk(t1, u1)
  {
    InsideCircle(m, t0, t1, h);
    if h > 9.0 {
      ScaleFactor(sqrt(h), h);
      ScalingSettles(m, t0, t1, h, Factor(sqrt(h)));
    }
  }

  lemma SignOfProduct(x: real, y: real)
    requires x * y > 0.0
    ensures (x > 0.0 && y > 0.0) || (x < 0.0 && y < 0.0)
  {
  }

  lemma InitialAligned(m: seq<real>, i: nat)
    requires i < |m|
    ensures Aligned(m[i], InitialTangent(m, i)) && Aligned(m[i], InitialTangent(m, i + 1))
  {
    if 0 < i && m[i - 1] * m[i] > 0.0 { SignOfProduct(m[i - 1], m[i]); }
    if i + 1 < |m| && m[i] * m[i + 1] > 0.0 { SignOfProduct(m[i], m[i + 1]); }
  }

  /** After n steps of the limiter on the tangents t: every segment visited is settled, every other one is still aligned,
      and each tangent is a cut-back version of the initial one. */
  ghost predicate Limiting(m: seq<real>, t: seq<real>, n: nat)
    requires |t| == |m| + 1 && n <= |m| && |m| >= 1
  {
    && (forall i :: 0 <= i < n ==> Settled(m[i], t[i], t[i + 1]))
    && (forall i :: n <= i < |m| ==> Aligned(m[i], t[i]) && Aligned(m[i], t[i + 1]))
    && (forall j :: 0 <= j <= |m| ==> Shrunk(InitialTangent(m, j), t[j]))
  }

  /** The loop invariant of the limiter.  The cut made for segment n also hits segment n - 1. */
  lemma {:induction false} LimiterInvariant(sqrt: real -> real, m: seq<real>, n: nat)
    requires IsSqrt(sqrt) && |m| >= 1 && n <= |m|
    ensures Limiting(m, Limited(sqrt, m, n), n)
  {
    if n == 0 {
      InitiallyLimiting(m);
    } else {
      LimiterInvariant(sqrt, m, n - 1);
      OneMoreLimited(sqrt, m, Limited(sqrt, m, n - 1), n - 1);
    }
  }

  lemma InitiallyLimiting(m: seq<real>)
    requires |m| >= 1
    ensures Limiting(m, InitialTangents(m), 0)
  {
    var t := InitialTangents(m);
    forall i | 0 <= i < |m| ensures Aligned(m[i], t[i]) && Aligned(m[i], t[i + 1]) { InitialAligned(m, i); }
  }

  lemma OneMoreLimited(sqrt: real -> real, m: seq<real>, s: seq<real>, n: nat)
    requires IsSqrt(sqrt) && |s| == |m| + 1 && n < |m| && Limiting(m, s, n)
    ensures Limiting(m, LimitStep(sqrt, m, s, n), n + 1)
  {
    var t := LimitStep(sqrt, m, s, n);
    CutBackSettles(sqrt, m[n], s[n], s[n + 1]);
    assert forall j :: 0 <= j <= |m| ==> Shrunk(s[j], t[j]);
    StepKeepsSettled(m, s, t, n);
    forall i | n + 1 <= i < |m| ensures Aligned(m[i], t[i]) && Aligned(m[i], t[i + 1]) {
      ShrunkAligned(m[i], s[i], t[i]);
      ShrunkAligned(m[i], s[i + 1], t[i + 1]);
    }
    forall j | 0 <= j <= |m| ensures Shrunk(InitialTangent(m, j), t[j]) {
      ShrunkTwice(InitialTangent(m, j), s[j], t[j]);
    }
  }

  lemma ShrunkAligned(m: real, before: real, after: real)
    requires Aligned(m, before) && Shrunk(before, after)
    ensures Aligned(m, after)
  {
  }

  lemma ShrunkTwice(first: real, before: real, after: real)
    requires Shrunk(first, before) && Shrunk(before, after)
    ensures Shrunk(first, after)
  {
  }

  /** A step that settles segment n and only cuts tangents back keeps the segments before n settled, although tangent n
      belongs to segment n - 1 too. */
  lemma StepKeepsSettled(m: seq<real>, s: seq<real>, t: seq<real>, n: nat)
    requires n < |m| && |s| == |t| == |m| + 1
    requires forall i :: 0 <= i < n ==> Settled(m[i], s[i], s[i + 1])
    requires forall j :: 0 <= j <= |m| ==> Shrunk(s[j], t[j])
    requires Settled(m[n], t[n], t[n + 1])
    ensures forall i :: 0 <= i <= n ==> Settled(m[i], t[i], t[i + 1])
  {
    forall i | 0 <= i < n ensures Settled(m[i], t[i], t[i + 1]) {
      SettledSurvivesShrinking(m[i], s[i], s[i + 1], t[i], t[i + 1]);
    }
  }

  lemma CutBackKeepsSettled(sqrt: real -> real, m: real, t0: real, t1: real)
    requires Settled(m, t0, t1)
    ensures CutBack(sqrt, m, t0, t1) == (t0, t1)
  {
    if m != 0.0 {
      SpreadInChordUnits(m, t0, t1);
      InsideCircle(m, t0, t1, Spread(t0 / m, t1 / m));
    }
  }

  /** The limiter is the identity on data whose averaged slopes are already settled. */
  lemma {:induction false} LimiterKeepsSettledData(sqrt: real -> real, m: seq<real>, n: nat)
    requires |m| >= 1 && n <= |m|
    requires forall i :: 0 <= i < |m| ==> Settled(m[i], InitialTangent(m, i), InitialTangent(m, i + 1))
    ensures Limited(sqrt, m, n) == InitialTangents(m)
  {
    if n > 0 {
      LimiterKeepsSettledData(sqrt, m, n - 1);
      var t := InitialTangents(m);
      CutBackKeepsSettled(sqrt, m[n - 1], t[n - 1], t[n]);
    }
  }

  // ---------------------------------------------------------------- what that means for the drawing

  /** One coordinate of a Bezier cubic at parameter s. */
  function Bezier(p: real, q: real, r: real, z: real, s: real): real {
    var w := 1.0 - s;
    w * w * w * p + 3.0 * (w * w * s) * q + 3.0 * (w * s * s) * r + s * s * s * z
  }

  function YAt(c: Cubic, s: real): real { Bezier(c.p0.y, c.c1.y, c.c2.y, c.p1.y, s) }

  function XAt(c: Cubic, s: real): real { Bezier(c.p0.x, c.c1.x, c.c2.x, c.p1.x, s) }

  /** Rate of change of a unit-height cubic whose end slopes are a and b times the chord. */
  function Rate(a: real, b: real, s: real): real {
    Form(a, b, a + b - 3.0, s, 1.0 - s)
  }

  /** The Fritsch-Carlson criterion: inside the circle of radius 3 the rate never turns negative. */
  lemma RateNonNegative(a: real, b: real, s: real)
    requires a >= 0.0 && b >= 0.0 && Spread(a, b) <= 9.0 && 0.0 <= s <= 1.0
    ensures Rate(a, b, s) >= 0.0
  {
    var w, q := 1.0 - s, a + b - 3.0;
    if q > 0.0 {
      CircleInsideParabola(a, b);
      FormByDiscriminant(a, b, q, s, w);
    } else {
      FormBySigns(a, b, q, s, w);
    }
  }

  /** a w^2 - 2 q s w + b s^2, the shape of Rate with w = 1 - s and q = a + b - 3. */
  function Form(a: real, b: real, q: real, s: real, w: real): real {
    Mul(a, Sq(w)) - 2.0 * Mul(q, Mul(s, w)) + Mul(b, Sq(s))
  }

  lemma FormBySigns(a: real, b: real, q: real, s: real, w: real)
    requires a >= 0.0 && b >= 0.0 && q <= 0.0 && s >= 0.0 && w >= 0.0
    ensures Form(a, b, q, s, w) >= 0.0
  {
    assert Mul(-q, Mul(s, w)) == -Mul(q, Mul(s, w));
  }

  lemma CircleInsideParabola(a: real, b: real)
    requires a >= 0.0 && b >= 0.0 && Spread(a, b) <= 9.0 && a + b > 3.0
    ensures Sq(a + b - 3.0) <= Mul(a, b)
  {
    var c := a + b;
    assert Sq(c) == Spread(a, b) + 2.0 * Mul(a, b);
    assert Sq(a - b) == Spread(a, b) - 2.0 * Mul(a, b);
    assert Sq(c) - Sq(9.0) == Mul(c - 9.0, c + 9.0);
    assert c <= 9.0;
    assert Mul(c - 3.0, 9.0 - c) == 12.0 * c - Sq(c) - 27.0;
    assert Sq(c - 3.0) == Sq(c) - 6.0 * c + 9.0;
  }

  /** A quadratic form with non-positive discriminant does not change sign. */
  lemma FormByDiscriminant(a: real, b: real, q: real, s: real, w: real)
    requires a >= 0.0 && b >= 0.0 && q > 0.0 && Sq(q) <= Mul(a, b)
    ensures Form(a, b, q, s, w) >= 0.0
  {
    if a == 0.0 { assert false; }
    CompleteSquare(a, b, q, s, w);
    NonNegFactor(a, Form(a, b, q, s, w));
  }

  lemma CompleteSquare(a: real, b: real, q: real, s: real, w: real)
    ensures Mul(a, Form(a, b, q, s, w)) == Sq(Mul(a, w) - Mul(q, s)) + Mul(Mul(a, b) - Sq(q), Sq(s))
  {
    var x, y := Mul(a, w), Mul(q, s);
    assert Sq(x - y) == Sq(x) - 2.0 * Mul(x, y) + Sq(y);
    SqOfProduct(a, w);
    SqOfProduct(q, s);
    CrossTerm(a, q, s, w);
    assert Mul(Mul(a, b) - Sq(q), Sq(s)) == Mul(Mul(a, b), Sq(s)) - Mul(Sq(q), Sq(s));
    Associate(a, a, Sq(w));
    Associate(a, b, Sq(s));
    DistributeForm(a, Mul(a, Sq(w)), Mul(q, Mul(s, w)), Mul(b, Sq(s)));
  }

  lemma CrossTerm(a: real, q: real, s: real, w: real)
    ensures Mul(Mul(a, w), Mul(q, s)) == Mul(a, Mul(q, Mul(s, w)))
  {
  }

  lemma DistributeForm(a: real, x: real, y: real, z: real)
    ensures Mul(a, x - 2.0 * y + z) == Mul(a, x) - 2.0 * Mul(a, y) + Mul(a, z)
  {
  }

  lemma NonNegFactor(x: real, y: real)
    requires x > 0.0 && Mul(x, y) >= 0.0
    ensures y >= 0.0
  {
    assert Mul(x, -y) == -Mul(x, y);
  }

  lemma Congruence(x: real, y: real, z: real)
    requires y == z
    ensures x * y == x * z
  {
  }

  lemma NonNegProduct(x: real, y: real)
    requires x >= 0.0 && y >= 0.0
    ensures x * y >= 0.0
  {
  }

  lemma BezierOfOffsets(p: real, d: real, f: real, g: real, s: real)
    ensures Bezier(p, p + f, p + d - g, p + d, s)
         == p + 3.0 * f * s + (3.0 * d - 6.0 * f - 3.0 * g) * (s * s) + (3.0 * f + 3.0 * g - 2.0 * d) * (s * s * s)
  {
  }

  lemma BezierAsCubic(p: real, d: real, f: real, g: real, c2: real, c3: real, s: real) returns (y: real)
    requires c2 == 3.0 * d - 2.0 * f - g && c3 == f + g - 2.0 * d
    ensures y == Bezier(p, p + f / 3.0, p + d - g / 3.0, p + d, s)
    ensures y == p + (f * s + c2 * (s * s) + c3 * (s * s * s))
  {
    y := Bezier(p, p + f / 3.0, p + d - g / 3.0, p + d, s);
    BezierOfOffsets(p, d, f / 3.0, g / 3.0, s);
    Congruence(s * s, c2, 3.0 * d - 2.0 * f - g);
    Congruence(s * s * s, c3, f + g - 2.0 * d);
  }

  lemma RatePolynomial(a: real, b: real, s: real)
    ensures Rate(a, b, s) == a + 2.0 * ((3.0 - 2.0 * a - b) * s) + 3.0 * ((a + b - 2.0) * (s * s))
  {
  }

  /** The derivative of the cubic of height d whose control points sit a and b thirds of the way up: it never has the
      sign opposite to d. */
  lemma DerivativeSign(d: real, a: real, b: real, f: real, g: real, c2: real, c3: real, s: real) returns (q: real)
    requires a >= 0.0 && b >= 0.0 && Spread(a, b) <= 9.0 && 0.0 <= s <= 1.0
    requires f == a * d && g == b * d && c2 == 3.0 * d - 2.0 * f - g && c3 == f + g - 2.0 * d
    ensures q == f + 2.0 * (c2 * s) + 3.0 * (c3 * (s * s))
    ensures (d >= 0.0 ==> q >= 0.0) && (d <= 0.0 ==> q <= 0.0)
  {
    var r := NonNegRate(a, b, s);
    q := ScaledRate(d, a, b, f, g, c2, c3, s, r);
    ScaledOrder(d, 0.0, r);
  }

  lemma NonNegRate(a: real, b: real, s: real) returns (r: real)
    requires a >= 0.0 && b >= 0.0 && Spread(a, b) <= 9.0 && 0.0 <= s <= 1.0
    ensures r >= 0.0 && r == a + 2.0 * ((3.0 - 2.0 * a - b) * s) + 3.0 * ((a + b - 2.0) * (s * s))
  {
    r := Rate(a, b, s);
    RateNonNegative(a, b, s);
    RatePolynomial(a, b, s);
  }

  lemma ScaledRate(d: real, a: real, b: real, f: real, g: real, c2: real, c3: real, s: real, r: real)
      returns (q: real)
    requires r == a + 2.0 * ((3.0 - 2.0 * a - b) * s) + 3.0 * ((a + b - 2.0) * (s * s))
    requires f == a * d && g == b * d && c2 == 3.0 * d - 2.0 * f - g && c3 == f + g - 2.0 * d
    ensures q == d * r && q == f + 2.0 * (c2 * s) + 3.0 * (c3 * (s * s))
  {
    q := d * r;
    Congruence(d, r, a + 2.0 * ((3.0 - 2.0 * a - b) * s) + 3.0 * ((a + b - 2.0) * (s * s)));
    ScaledPolynomial(d, a, b, s);
    Congruence(s, c2, 3.0 * d - 2.0 * (a * d) - b * d);
    Congruence(s * s, c3, a * d + b * d - 2.0 * d);
  }

  lemma ScaledPolynomial(d: real, a: real, b: real, s: real)
    ensures d * (a + 2.0 * ((3.0 - 2.0 * a - b) * s) + 3.0 * ((a + b - 2.0) * (s * s)))
         == a * d + 2.0 * (s * (3.0 * d - 2.0 * (a * d) - b * d)) + 3.0 * (s * s * (a * d + b * d - 2.0 * d))
  {
  }

  lemma SumOfRates(c1: real, c2: real, c3: real, u: real, v: real, mid: real)
    requires mid == (u + v) / 2.0
    ensures (c1 + 2.0 * (c2 * u) + 3.0 * (c3 * (u * u))) + 4.0 * (c1 + 2.0 * (c2 * mid) + 3.0 * (c3 * (mid * mid)))
              + (c1 + 2.0 * (c2 * v) + 3.0 * (c3 * (v * v)))
            == 6.0 * (c1 + c2 * (u + v) + c3 * (u * u + u * v + v * v))
  {
    MiddleTerms(u, v, mid);
    Congruence(c2, 2.0 * mid, u + v);
    Congruence(c3, 4.0 * (mid * mid), u * u + 2.0 * (u * v) + v * v);
    TakeOut(c2, mid, u, v);
    TakeOutSquares(c3, mid * mid, u * u, u * v, v * v);
  }

  lemma MiddleTerms(u: real, v: real, mid: real)
    requires mid == (u + v) / 2.0
    ensures 2.0 * mid == u + v && 4.0 * (mid * mid) == u * u + 2.0 * (u * v) + v * v
  {
    Congruence(2.0 * mid, 2.0 * mid, u + v);
    Congruence(u + v, 2.0 * mid, u + v);
    SquareOfSum(u, v);
    SquareOfDouble(mid);
  }

  lemma SquareOfSum(u: real, v: real)
    ensures (u + v) * (u + v) == u * u + 2.0 * (u * v) + v * v
  {
  }

  lemma SquareOfDouble(x: real)
    ensures (2.0 * x) * (2.0 * x) == 4.0 * (x * x)
  {
  }

  lemma TakeOut(c: real, mid: real, u: real, v: real)
    ensures c * (2.0 * mid) == 2.0 * (c * mid) && c * (u + v) == c * u + c * v
  {
  }

  lemma TakeOutSquares(c: real, mm: real, uu: real, uv: real, vv: real)
    ensures c * (4.0 * mm) == 4.0 * (c * mm)
    ensures c * (uu + 2.0 * uv + vv) == c * uu + 2.0 * (c * uv) + c * vv
    ensures c * (uu + uv + vv) == c * uu + c * uv + c * vv
  {
  }

  lemma PowerDifference(c1: real, c2: real, c3: real, u: real, v: real)
    ensures (v - u) * (6.0 * (c1 + c2 * (u + v) + c3 * (u * u + u * v + v * v)))
         == 6.0 * ((c1 * v + c2 * (v * v) + c3 * (v * v * v)) - (c1 * u + c2 * (u * u) + c3 * (u * u * u)))
  {
  }

  /** Simpson's rule is exact for cubics: the rise from u to v is an average of three derivatives. */
  lemma RiseIsAverageRate(c1: real, c2: real, c3: real, u: real, v: real, mid: real, qu: real, qm: real, qv: real)
    requires mid == (u + v) / 2.0
    requires qu == c1 + 2.0 * (c2 * u) + 3.0 * (c3 * (u * u))
    requires qv == c1 + 2.0 * (c2 * v) + 3.0 * (c3 * (v * v))
    requires qm == c1 + 2.0 * (c2 * mid) + 3.0 * (c3 * (mid * mid))
    ensures 6.0 * ((c1 * v + c2 * (v * v) + c3 * (v * v * v)) - (c1 * u + c2 * (u * u) + c3 * (u * u * u)))
         == (v - u) * (qu + 4.0 * qm + qv)
  {
    SumOfRates(c1, c2, c3, u, v, mid);
    PowerDifference(c1, c2, c3, u, v);
    Congruence(v - u, qu + 4.0 * qm + qv, 6.0 * (c1 + c2 * (u + v) + c3 * (u * u + u * v + v * v)));
  }

  /** A cubic whose control points sit a and b thirds of the way up, with (a, b) in the circle, is monotone. */
  lemma BezierIsMonotone(p: real, d: real, a: real, b: real, f: real, g: real, u: real, v: real)
    requires a >= 0.0 && b >= 0.0 && Spread(a, b) <= 9.0 && 0.0 <= u <= v <= 1.0
    requires f == a * d && g == b * d
    ensures d >= 0.0 ==> Bezier(p, p + f / 3.0, p + d - g / 3.0, p + d, u) <= Bezier(p, p + f / 3.0, p + d - g / 3.0, p + d, v)
    ensures d <= 0.0 ==> Bezier(p, p + f / 3.0, p + d - g / 3.0, p + d, u) >= Bezier(p, p + f / 3.0, p + d - g / 3.0, p + d, v)
  {
    var c2, c3 := 3.0 * d - 2.0 * f - g, f + g - 2.0 * d;
    var e := RiseSign(d, a, b, f, g, c2, c3, u, v);
    var yu := BezierAsCubic(p, d, f, g, c2, c3, u);
    var yv := BezierAsCubic(p, d, f, g, c2, c3, v);
  }

  lemma RiseSign(d: real, a: real, b: real, f: real, g: real, c2: real, c3: real, u: real, v: real) returns (e: real)
    requires a >= 0.0 && b >= 0.0 && Spread(a, b) <= 9.0 && 0.0 <= u <= v <= 1.0
    requires f == a * d && g == b * d && c2 == 3.0 * d - 2.0 * f - g && c3 == f + g - 2.0 * d
    ensures e == (f * v + c2 * (v * v) + c3 * (v * v * v)) - (f * u + c2 * (u * u) + c3 * (u * u * u))
    ensures (d >= 0.0 ==> e >= 0.0) && (d <= 0.0 ==> e <= 0.0)
  {
    var mid := (u + v) / 2.0;
    var qu := DerivativeSign(d, a, b, f, g, c2, c3, u);
    var qm := DerivativeSign(d, a, b, f, g, c2, c3, mid);
    var qv := DerivativeSign(d, a, b, f, g, c2, c3, v);
    e := SignedRise(f, c2, c3, u, v, mid, qu, qm, qv);
  }

  lemma SignedRise(c1: real, c2: real, c3: real, u: real, v: real, mid: real, qu: real, qm: real, qv: real)
      returns (e: real)
    requires u <= v && mid == (u + v) / 2.0
    requires qu == c1 + 2.0 * (c2 * u) + 3.0 * (c3 * (u * u))
    requires qv == c1 + 2.0 * (c2 * v) + 3.0 * (c3 * (v * v))
    requires qm == c1 + 2.0 * (c2 * mid) + 3.0 * (c3 * (mid * mid))
    ensures e == (c1 * v + c2 * (v * v) + c3 * (v * v * v)) - (c1 * u + c2 * (u * u) + c3 * (u * u * u))
    ensures (qu >= 0.0 && qm >= 0.0 && qv >= 0.0 ==> e >= 0.0) && (qu <= 0.0 && qm <= 0.0 && qv <= 0.0 ==> e <= 0.0)
  {
    e := (c1 * v + c2 * (v * v) + c3 * (v * v * v)) - (c1 * u + c2 * (u * u) + c3 * (u * u * u));
    RiseIsAverageRate(c1, c2, c3, u, v, mid, qu, qm, qv);
    ScaledOrder(v - u, 0.0, qu + 4.0 * qm + qv);
    ScaledOrder(v - u, qu + 4.0 * qm + qv, 0.0);
  }

  lemma ScaledOrder(d: real, x: real, y: real)
    ensures x <= y && d >= 0.0 ==> d * x <= d * y
    ensures x <= y && d <= 0.0 ==> d * x >= d * y
  {
    assert d * (y - x) == d * y - d * x;
    if x <= y {
      if d >= 0.0 { NonNegProduct(d, y - x); } else { NonNegProduct(-d, y - x); }
    }
  }

  /** y lies between p and q. */
  predicate Between(p: real, y: real, q: real) {
    (p <= q ==> p <= y <= q) && (p >= q ==> p >= y >= q)
  }

  /** A settled segment in units of its own height: its tangents are a and b chord slopes. */
  lemma SettledShape(p: Pt, q: Pt, t0: real, t1: real) returns (a: real, b: real, f: real, g: real)
    requires Settled(Slope(p, q), t0, t1)
    ensures 0.0 <= a <= 3.0 && 0.0 <= b <= 3.0 && Spread(a, b) <= 9.0
    ensures f == t0 * (q.x - p.x) && g == t1 * (q.x - p.x) && f == a * (q.y - p.y) && g == b * (q.y - p.y)
  {
    var dx, dy, m := q.x - p.x, q.y - p.y, Slope(p, q);
    f, g := t0 * dx, t1 * dx;
    if m == 0.0 {
      assert t0 == 0.0 && t1 == 0.0;
      a, b := 0.0, 0.0;
    } else {
      a, b := t0 / m, t1 / m;
      SpreadInChordUnits(m, t0, t1);
      InsideCircle(m, t0, t1, Spread(a, b));
      RatioOfAligned(m, t0, a);
      RatioOfAligned(m, t1, b);
      SqBound(a, Sq(b));
      SqBound(b, Sq(a));
      ChordTimesRun(dx, dy, m, t0, a);
      ChordTimesRun(dx, dy, m, t1, b);
    }
  }

  lemma RatioOfAligned(m: real, t: real, a: real)
    requires m != 0.0 && a == t / m && Aligned(m, t)
    ensures a >= 0.0
  {
  }

  lemma SqBound(a: real, rest: real)
    requires a >= 0.0 && rest >= 0.0 && Sq(a) + rest <= 9.0
    ensures a <= 3.0
  {
    assert Sq(a) - Sq(3.0) == Mul(a - 3.0, a + 3.0);
  }

  lemma ChordTimesRun(dx: real, dy: real, m: real, t: real, a: real)
    requires dx != 0.0 && m == dy / dx && m != 0.0 && a == t / m
    ensures t * dx == a * dy
  {
    assert m * dx == dy && a * m == t;
  }

  lemma BezierEnds(p: real, q: real, r: real, z: real)
    ensures Bezier(p, q, r, z, 0.0) == p && Bezier(p, q, r, z, 1.0) == z
  {
  }

  lemma ThirdsOfTheWay(p: real, d: real, a: real, f: real)
    requires 0.0 <= a <= 3.0 && f == a * d
    ensures Between(p, p + f / 3.0, p + d) && Between(p, p + d - f / 3.0, p + d)
  {
    ScaledOrder(d, 0.0, a);
    ScaledOrder(d, a, 3.0);
  }

  /** The control ordinates of segment i are fractions a / 3 and 1 - b / 3 of its rise, with (a, b) in the circle. */
  lemma SegmentShape(sqrt: real -> real, pts: seq<Pt>, i: nat) returns (d: real, a: real, b: real, f: real, g: real)
    requires IsSqrt(sqrt) && |pts| >= 3 && i < |pts| - 1
    ensures 0.0 <= a <= 3.0 && 0.0 <= b <= 3.0 && Spread(a, b) <= 9.0 && f == a * d && g == b * d
    ensures var c := PathThrough(sqrt, pts).cubics[i];
            && c.p0 == pts[i] && c.p1 == pts[i + 1] && c.p1.y == c.p0.y + d
            && c.c1.y == c.p0.y + f / 3.0 && c.c2.y == c.p0.y + d - g / 3.0
  {
    TangentsSettle(sqrt, pts, i);
    d, a, b, f, g := ShapeOf(pts, Tangents(sqrt, pts), i);
  }

  lemma ShapeOf(pts: seq<Pt>, t: seq<real>, i: nat) returns (d: real, a: real, b: real, f: real, g: real)
    requires i + 1 < |pts| && |t| == |pts| && Settled(Slope(pts[i], pts[i + 1]), t[i], t[i + 1])
    ensures 0.0 <= a <= 3.0 && 0.0 <= b <= 3.0 && Spread(a, b) <= 9.0 && f == a * d && g == b * d
    ensures var c := Cubics(pts, t)[i];
            && c.p0 == pts[i] && c.p1 == pts[i + 1] && c.p1.y == c.p0.y + d
            && c.c1.y == c.p0.y + f / 3.0 && c.c2.y == c.p0.y + d - g / 3.0
  {
    d, a, b, f, g := ShapeOfSegment(pts[i], pts[i + 1], t[i], t[i + 1]);
  }

  lemma ShapeOfSegment(p: Pt, q: Pt, t0: real, t1: real) returns (d: real, a: real, b: real, f: real, g: real)
    requires Settled(Slope(p, q), t0, t1)
    ensures 0.0 <= a <= 3.0 && 0.0 <= b <= 3.0 && Spread(a, b) <= 9.0 && f == a * d && g == b * d
    ensures var c := Segment(p, q, t0, t1);
            && c.p0 == p && c.p1 == q && q.y == p.y + d && c.c1.y == p.y + f / 3.0 && c.c2.y == p.y + d - g / 3.0
  {
    a, b, f, g := SettledShape(p, q, t0, t1);
    d := q.y - p.y;
    ControlHeights(p, q, t0, t1, f, g);
  }

  lemma ControlHeights(p: Pt, q: Pt, t0: real, t1: real, f: real, g: real)
    requires f == Mul(t0, q.x - p.x) && g == Mul(t1, q.x - p.x)
    ensures var c := Segment(p, q, t0, t1); c.c1.y == p.y + f / 3.0 && c.c2.y == q.y - g / 3.0
  {
  }

  lemma TangentsSettle(sqrt: real -> real, pts: seq<Pt>, i: nat)
    requires IsSqrt(sqrt) && i + 1 < |pts|
    ensures var t := Tangents(sqrt, pts); Settled(Slope(pts[i], pts[i + 1]), t[i], t[i + 1])
  {
    LimiterInvariant(sqrt, Slopes(pts), |pts| - 1);
  }

  /** The chart line never overshoots: on every segment both control ordinates lie between the ordinates of its end
      points, and the drawn curve runs monotonically from one to the other.  In particular it stays between them, and is
      constant where they are equal. */
  lemma NeverOvershoots(sqrt: real -> real, pts: seq<Pt>, i: nat, u: real, v: real)
    requires IsSqrt(sqrt) && |pts| >= 3 && i < |pts| - 1 && 0.0 <= u <= v <= 1.0
    ensures var c := PathThrough(sqrt, pts).cubics[i];
            && c.p0 == pts[i] && c.p1 == pts[i + 1]
            && Between(c.p0.y, c.c1.y, c.p1.y) && Between(c.p0.y, c.c2.y, c.p1.y)
            && (c.p0.y <= c.p1.y ==> c.p0.y <= YAt(c, u) <= YAt(c, v) <= c.p1.y)
            && (c.p0.y >= c.p1.y ==> c.p0.y >= YAt(c, u) >= YAt(c, v) >= c.p1.y)
  {
    var d, a, b, f, g := SegmentShape(sqrt, pts, i);
    var p := pts[i].y;
    ThirdsOfTheWay(p, d, a, f);
    ThirdsOfTheWay(p, d, b, g);
    BezierIsMonotone(p, d, a, b, f, g, 0.0, u);
    BezierIsMonotone(p, d, a, b, f, g, u, v);
    BezierIsMonotone(p, d, a, b, f, g, v, 1.0);
    BezierEnds(p, p + f / 3.0, p + d - g / 3.0, p + d);
  }

  /** The pieces of the path on either side of point i. */
  lemma Pieces(sqrt: real -> real, pts: seq<Pt>, i: nat) returns (before: real, at: real, after: real)
    requires |pts| >= 3 && 0 < i < |pts| - 1
    ensures var cs := PathThrough(sqrt, pts).cubics;
            cs[i - 1] == Segment(pts[i - 1], pts[i], before, at) && cs[i] == Segment(pts[i], pts[i + 1], at, after)
  {
    var t := Tangents(sqrt, pts);
    before, at, after := t[i - 1], t[i], t[i + 1];
  }

  lemma Piece(sqrt: real -> real, pts: seq<Pt>, i: nat) returns (t0: real, t1: real)
    requires |pts| >= 3 && i < |pts| - 1
    ensures PathThrough(sqrt, pts).cubics[i] == Segment(pts[i], pts[i + 1], t0, t1)
  {
    t0, t1 := Tangents(sqrt, pts)[i], Tangents(sqrt, pts)[i + 1];
  }

  /** The abscissa advances evenly, so the curve is the graph of a function of x. */
  lemma EvenAbscissa(sqrt: real -> real, pts: seq<Pt>, i: nat, s: real)
    requires |pts| >= 3 && i < |pts| - 1
    ensures XAt(PathThrough(sqrt, pts).cubics[i], s) == pts[i].x + Mul(s, pts[i + 1].x - pts[i].x)
  {
    var t0, t1 := Piece(sqrt, pts, i);
    EvenCubic(PathThrough(sqrt, pts).cubics[i], pts[i].x, pts[i + 1].x - pts[i].x, s);
  }

  lemma EvenCubic(c: Cubic, p: real, d: real, s: real)
    requires c.p0.x == p && c.c1.x == p + d / 3.0 && c.c2.x == p + d - d / 3.0 && c.p1.x == p + d
    ensures XAt(c, s) == p + Mul(s, d)
  {
    EvenBezier(p, d, s);
  }

  lemma EvenBezier(p: real, d: real, s: real)
    ensures Bezier(p, p + d / 3.0, p + d - d / 3.0, p + d, s) == p + Mul(s, d)
  {
    BezierOfOffsets(p, d, d, d, s);
  }

  /** Three points on one line, the middle one given by p. */
  predicate Collinear(before: Pt, p: Pt, after: Pt) {
    Mul(after.y - p.y, p.x - before.x) == Mul(p.y - before.y, after.x - p.x)
  }

  /** The curve is smooth: at an inner point the incoming and the outgoing control point lie on one line through it. */
  lemma SmoothAtInnerPoints(sqrt: real -> real, pts: seq<Pt>, i: nat)
    requires |pts| >= 3 && 0 < i < |pts| - 1
    ensures var cs := PathThrough(sqrt, pts).cubics; Collinear(cs[i - 1].c2, pts[i], cs[i].c1)
  {
    var before, at, after := Pieces(sqrt, pts, i);
    SmoothJoint(pts[i - 1], pts[i], pts[i + 1], before, at, after);
  }

  lemma SmoothJoint(a: Pt, p: Pt, b: Pt, t0: real, t: real, t1: real)
    ensures Collinear(Segment(a, p, t0, t).c2, p, Segment(p, b, t, t1).c1)
  {
    var f0, f1 := Mul(t, p.x - a.x), Mul(t, b.x - p.x);
    ControlHeights(a, p, t0, t, Mul(t0, p.x - a.x), f0);
    ControlHeights(p, b, t, t1, f1, Mul(t1, b.x - p.x));
    SmoothControls(a, p, b, t, f0, f1, Segment(a, p, t0, t).c2, Segment(p, b, t, t1).c1);
  }

  lemma SmoothControls(a: Pt, p: Pt, b: Pt, t: real, f0: real, f1: real, before: Pt, after: Pt)
    requires f0 == Mul(t, p.x - a.x) && before == Pt(p.x - (p.x - a.x) / 3.0, p.y - f0 / 3.0)
    requires f1 == Mul(t, b.x - p.x) && after == Pt(p.x + (b.x - p.x) / 3.0, p.y + f1 / 3.0)
    ensures Collinear(before, p, after)
  {
    var dx0, dx1 := p.x - a.x, b.x - p.x;
    assert after.y - p.y == f1 / 3.0 && p.x - before.x == dx0 / 3.0;
    assert p.y - before.y == f0 / 3.0 && after.x - p.x == dx1 / 3.0;
    OnOneLine(dx0, dx1, t, f0, f1);
  }

  lemma OnOneLine(dx0: real, dx1: real, t: real, f0: real, f1: real)
    requires f0 == Mul(t, dx0) && f1 == Mul(t, dx1)
    ensures Mul(f1 / 3.0, dx0 / 3.0) == Mul(f0 / 3.0, dx1 / 3.0)
  {
    Congruence(dx0, f1, t * dx1);
    Congruence(dx1, f0, t * dx0);
    Thirds(f1, dx0);
    Thirds(f0, dx1);
    Swap(dx0, t, dx1);
  }

  lemma Thirds(x: real, y: real)
    ensures Mul(x / 3.0, y / 3.0) == y * x / 9.0
  {
  }

  lemma Swap(x: real, t: real, y: real)
    ensures x * (t * y) == y * (t * x)
  {
  }
}
