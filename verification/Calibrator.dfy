/**
 The clock calibrator: fits a line through (sample position, timestamp) pairs, one sample
 at a time. Over the reals the running moments are the batch sums, the slope is the
 least-squares one, and lost samples or a wrapping sequence number do not bias it.
 */
module Calibrator {
  import opened Arithmetic

  const MAX_SEQ_JUMP: nat := 1000

  datatype Point = Point(x: real, y: real)

  function Mul(a: real, b: real): real { a * b }
  function Div(a: real, b: real): real
    requires b != 0.0
  {
    a / b
  }

  // ---------------------------------------------------------------------------
  // Batch sums
  // ---------------------------------------------------------------------------

  ghost function Sx(p: seq<Point>): real { if p == [] then 0.0 else Sx(p[..|p| - 1]) + p[|p| - 1].x }
  ghost function Sy(p: seq<Point>): real { if p == [] then 0.0 else Sy(p[..|p| - 1]) + p[|p| - 1].y }
  ghost function Sxx(p: seq<Point>): real { if p == [] then 0.0 else Sxx(p[..|p| - 1]) + Mul(p[|p| - 1].x, p[|p| - 1].x) }
  ghost function Sxy(p: seq<Point>): real { if p == [] then 0.0 else Sxy(p[..|p| - 1]) + Mul(p[|p| - 1].x, p[|p| - 1].y) }

  lemma SumsGrow(p: seq<Point>, q: Point)
    ensures Sx(p + [q]) == Sx(p) + q.x && Sy(p + [q]) == Sy(p) + q.y
    ensures Sxx(p + [q]) == Sxx(p) + Mul(q.x, q.x) && Sxy(p + [q]) == Sxy(p) + Mul(q.x, q.y)
  {
    hide Mul;
    assert (p + [q])[..|p|] == p;
  }

  /** The co-moment about two centres, summed directly. */
  ghost function CoMoment(p: seq<Point>, u: real, v: real): real {
    if p == [] then 0.0 else CoMoment(p[..|p| - 1], u, v) + Mul(p[|p| - 1].x - u, p[|p| - 1].y - v)
  }

  ghost function Moment(p: seq<Point>, u: real): real {
    if p == [] then 0.0 else Moment(p[..|p| - 1], u) + Mul(p[|p| - 1].x - u, p[|p| - 1].x - u)
  }

  ghost function Expansion(sxy: real, sx: real, sy: real, n: real, u: real, v: real): real {
    sxy - Mul(v, sx) - Mul(u, sy) + Mul(n, Mul(u, v))
  }

  lemma ExpandStep(sxy: real, sx: real, sy: real, n: real, x: real, y: real, u: real, v: real)
    ensures Expansion(sxy, sx, sy, n, u, v) + Mul(x - u, y - v) == Expansion(sxy + Mul(x, y), sx + x, sy + y, n + 1.0, u, v)
  {
  }

  lemma ExpandNone(u: real, v: real)
    ensures Expansion(0.0, 0.0, 0.0, 0.0, u, v) == 0.0
  {
  }

  lemma {:induction false} MomentsExpand(p: seq<Point>, u: real, v: real)
    ensures CoMoment(p, u, v) == Expansion(Sxy(p), Sx(p), Sy(p), |p| as real, u, v)
    ensures Moment(p, u) == Expansion(Sxx(p), Sx(p), Sx(p), |p| as real, u, u)
    decreases |p|
  {
    hide Mul, Expansion;
    if p == [] {
      ExpandNone(u, v);
      ExpandNone(u, u);
    } else {
      var r, q := p[..|p| - 1], p[|p| - 1];
      MomentsExpand(r, u, v);
      ExpandStep(Sxy(r), Sx(r), Sy(r), |r| as real, q.x, q.y, u, v);
      ExpandStep(Sxx(r), Sx(r), Sx(r), |r| as real, q.x, q.x, u, u);
    }
  }

  // ---------------------------------------------------------------------------
  // Running moments
  // ---------------------------------------------------------------------------

  /** The running values are those of the points so far. */
  ghost predicate Fits(p: seq<Point>, mx: real, my: real, cxx: real, cxy: real) {
    var n := |p| as real;
    && Mul(n, mx) == Sx(p) && Mul(n, my) == Sy(p)
    && cxx == Sxx(p) - Mul(n, Mul(mx, mx))
    && cxy == Sxy(p) - Mul(n, Mul(mx, my))
  }

  /** The means are the means, and the moments are the sums about the means. */
  lemma FitsMeansBatch(p: seq<Point>, mx: real, my: real, cxx: real, cxy: real)
    requires Fits(p, mx, my, cxx, cxy) && p != []
    ensures mx == Div(Sx(p), |p| as real) && my == Div(Sy(p), |p| as real)
    ensures cxx == Moment(p, mx) && cxy == CoMoment(p, mx, my)
  {
    hide Mul, Div, Expansion, Sx, Sy, Sxx, Sxy, Moment, CoMoment;
    MomentsExpand(p, mx, my);
    AboutMeans(|p| as real, mx, my, Sx(p), Sy(p), Sxy(p));
    AboutMeans(|p| as real, mx, mx, Sx(p), Sx(p), Sxx(p));
    Quotient(|p| as real, mx, Sx(p));
    Quotient(|p| as real, my, Sy(p));
  }

  lemma AboutMeans(n: real, mx: real, my: real, sx: real, sy: real, sxy: real)
    requires sx == Mul(n, mx) && sy == Mul(n, my)
    ensures Expansion(sxy, sx, sy, n, mx, my) == sxy - Mul(n, Mul(mx, my))
  {
    assert my * (n * mx) == n * (mx * my) && mx * (n * my) == n * (mx * my);
  }

  lemma Quotient(n: real, m: real, t: real)
    requires n != 0.0 && Mul(n, m) == t
    ensures m == Div(t, n)
  {
  }

  lemma DivideBack(d: real, n: real)
    requires n != 0.0
    ensures d == Mul(n, Div(d, n))
  {
  }

  /** The algebra of one update; q is d / (n + 1). */
  lemma UpdateAlgebra(n: real, mx: real, my: real, dx: real, dy: real, qx: real, qy: real)
    requires dx == (n + 1.0) * qx && dy == (n + 1.0) * qy
    ensures n * (mx * my) + (mx + dx) * (my + dy) - (n + 1.0) * ((mx + qx) * (my + qy)) == dx * (dy - qy)
  {
    var N := n + 1.0;
    assert N * ((mx + qx) * (my + qy)) == N * (mx * my) + mx * (N * qy) + my * (N * qx) + (N * qx) * qy by {
      assert (mx + qx) * (my + qy) == mx * my + mx * qy + qx * my + qx * qy;
      Distribute(N, mx, my, qx, qy);
    }
    assert (mx + dx) * (my + dy) == mx * my + mx * dy + dx * my + dx * dy;
    assert N * (mx * my) == n * (mx * my) + mx * my;
  }

  lemma Distribute(N: real, mx: real, my: real, qx: real, qy: real)
    ensures N * (mx * my + mx * qy + qx * my + qx * qy) == N * (mx * my) + mx * (N * qy) + my * (N * qx) + (N * qx) * qy
  {
    assert N * (mx * qy) == mx * (N * qy);
    assert N * (qx * my) == my * (N * qx);
    assert N * (qx * qy) == (N * qx) * qy;
  }

  lemma UpdateMean(n: real, m: real, s: real, d: real, q: real)
    requires Mul(n, m) == s && d == Mul(n + 1.0, q)
    ensures Mul(n + 1.0, m + q) == s + (m + d)
  {
  }

  lemma UpdateMoment(n: real, mx: real, my: real, sxy: real, cxy: real, dx: real, dy: real, qx: real, qy: real)
    requires cxy == sxy - Mul(n, Mul(mx, my))
    requires dx == Mul(n + 1.0, qx) && dy == Mul(n + 1.0, qy)
    ensures cxy + Mul(dx, dy - qy) == sxy + Mul(mx + dx, my + dy) - Mul(n + 1.0, Mul(mx + qx, my + qy))
  {
    UpdateAlgebra(n, mx, my, dx, dy, qx, qy);
  }

  /** One Welford step keeps the running values those of the points. */
  lemma UpdateFits(p: seq<Point>, mx: real, my: real, cxx: real, cxy: real, x: real, y: real, mx': real, my': real)
    requires Fits(p, mx, my, cxx, cxy)
    requires mx' == mx + Div(x - mx, (|p| + 1) as real) && my' == my + Div(y - my, (|p| + 1) as real)
    ensures Fits(p + [Point(x, y)], mx', my', cxx + Mul(x - mx, x - mx'), cxy + Mul(x - mx, y - my'))
  {
    hide Mul, Div, Sx, Sy, Sxx, Sxy;
    var n, N := |p| as real, (|p| + 1) as real;
    assert N == n + 1.0;
    var dx, dy := x - mx, y - my;
    var qx, qy := Div(dx, N), Div(dy, N);
    SumsGrow(p, Point(x, y));
    DivideBack(dx, N);
    DivideBack(dy, N);
    UpdateMean(n, mx, Sx(p), dx, qx);
    UpdateMean(n, my, Sy(p), dy, qy);
    UpdateMoment(n, mx, my, Sxy(p), cxy, dx, dy, qx, qy);
    UpdateMoment(n, mx, mx, Sxx(p), cxx, dx, dx, qx, qx);
    assert mx + dx == x && my + dy == y && dx - qx == x - mx' && dy - qy == y - my';
  }

  /** The spread of the positions never shrinks, and a second position makes it positive. */
  lemma SpreadGrows(n: nat, mx: real, x: real, mx': real)
    requires mx' == mx + Div(x - mx, (n + 1) as real)
    ensures Mul(x - mx, x - mx') >= 0.0
    ensures n >= 1 && x != mx ==> Mul(x - mx, x - mx') > 0.0
  {
    hide Mul, Div;
    var N := (n + 1) as real;
    var d := x - mx;
    var q := Div(d, N);
    DivideBack(d, N);
    assert x - mx' == d - q;
    Spread(n as real, d, q);
  }

  lemma Spread(n: real, d: real, q: real)
    requires n >= 0.0 && d == Mul(n + 1.0, q)
    ensures Mul(d, d - q) >= 0.0
    ensures n >= 1.0 && d != 0.0 ==> Mul(d, d - q) > 0.0
  {
    assert d - q == n * q;
    assert d * (n * q) == ((n + 1.0) * n) * (q * q);
    Positive((n + 1.0) * n, q * q);
    if n >= 1.0 && d != 0.0 {
      assert q != 0.0;
      assert q * q > 0.0;
      assert (n + 1.0) * n > 0.0;
    }
  }

  lemma Positive(a: real, b: real)
    ensures a >= 0.0 && b >= 0.0 ==> a * b >= 0.0
    ensures a > 0.0 && b > 0.0 ==> a * b > 0.0
  {
  }

  // ---------------------------------------------------------------------------
  // Least squares
  // ---------------------------------------------------------------------------

  ghost function Sq(r: real): (s: real)
    ensures s >= 0.0
  {
    r * r
  }

  /** The sum of squared residuals of the line y = a + b x. */
  ghost function Residuals(p: seq<Point>, a: real, b: real): real {
    if p == [] then 0.0
    else Residuals(p[..|p| - 1], a, b) + Sq(p[|p| - 1].y - a - Mul(b, p[|p| - 1].x))
  }

  ghost function Shift(p: seq<Point>, e: real, f: real): (g: real)
    ensures g >= 0.0
  {
    if p == [] then 0.0 else Shift(p[..|p| - 1], e, f) + Sq(e + Mul(f, p[|p| - 1].x))
  }

  /** How the level and the slope miss the normal equations. */
  ghost function Level(sy: real, n: real, a: real, b: real, sx: real): real { sy - Mul(n, a) - Mul(b, sx) }
  ghost function Tilt(sxy: real, a: real, sx: real, b: real, sxx: real): real { sxy - Mul(a, sx) - Mul(b, sxx) }

  /** The residuals of a moved line. */
  lemma {:induction false} ResidualsMove(p: seq<Point>, a: real, b: real, e: real, f: real)
    ensures Residuals(p, a + e, b + f) ==
            Residuals(p, a, b) - 2.0 * Mul(e, Level(Sy(p), |p| as real, a, b, Sx(p)))
            - 2.0 * Mul(f, Tilt(Sxy(p), a, Sx(p), b, Sxx(p))) + Shift(p, e, f)
    decreases |p|
  {
    hide Mul, Sq, Level, Tilt;
    if p == [] {
      NothingToMove(a, b, e, f);
    } else {
      var r, q := p[..|p| - 1], p[|p| - 1];
      ResidualsMove(r, a, b, e, f);
      OneResidual(q.x, q.y, a, b, e, f);
      LevelStep(e, Sy(r), q.y, |r| as real, a, b, Sx(r), q.x);
      TiltStep(f, Sxy(r), q.y, a, Sx(r), q.x, b, Sxx(r));
    }
  }

  lemma NothingToMove(a: real, b: real, e: real, f: real)
    ensures Mul(e, Level(0.0, 0.0, a, b, 0.0)) == 0.0 && Mul(f, Tilt(0.0, a, 0.0, b, 0.0)) == 0.0
  {
  }

  lemma OneResidual(x: real, y: real, a: real, b: real, e: real, f: real)
    ensures Sq(y - (a + e) - Mul(b + f, x)) ==
            Sq(y - a - Mul(b, x)) - 2.0 * Mul(e, y - a - Mul(b, x))
            - 2.0 * Mul(f, Mul(x, y) - Mul(a, x) - Mul(b, Mul(x, x))) + Sq(e + Mul(f, x))
  {
    var r, s := y - a - b * x, e + f * x;
    assert y - (a + e) - (b + f) * x == r - s by { assert (b + f) * x == b * x + f * x; }
    assert Sq(r - s) == Sq(r) - 2.0 * (s * r) + Sq(s);
    assert s * r == e * r + f * (x * r) by { assert (f * x) * r == f * (x * r); }
    assert x * r == x * y - a * x - b * (x * x) by { assert x * (b * x) == b * (x * x); }
  }

  lemma LevelStep(e: real, sy: real, y: real, n: real, a: real, b: real, sx: real, x: real)
    ensures Mul(e, Level(sy + y, n + 1.0, a, b, sx + x)) == Mul(e, Level(sy, n, a, b, sx)) + Mul(e, y - a - Mul(b, x))
  {
  }

  lemma TiltStep(f: real, sxy: real, y: real, a: real, sx: real, x: real, b: real, sxx: real)
    ensures Mul(f, Tilt(sxy + Mul(x, y), a, sx + x, b, sxx + Mul(x, x))) ==
            Mul(f, Tilt(sxy, a, sx, b, sxx)) + Mul(f, Mul(x, y) - Mul(a, x) - Mul(b, Mul(x, x)))
  {
  }

  /** cxy / cxx is the slope of the best line: no other line has smaller residuals. */
  lemma SlopeIsLeastSquares(p: seq<Point>, mx: real, my: real, cxx: real, cxy: real, a: real, b: real)
    requires Fits(p, mx, my, cxx, cxy) && cxx > 0.0
    ensures Residuals(p, my - Mul(Div(cxy, cxx), mx), Div(cxy, cxx)) <= Residuals(p, a, b)
  {
    hide Residuals, Sx, Sy, Sxx, Sxy, Mul, Div, Level, Tilt, Shift;
    var slope := Div(cxy, cxx);
    var base := my - Mul(slope, mx);
    NormalEquations(p, mx, my, cxx, cxy, slope);
    ResidualsMove(p, base, slope, a - base, b - slope);
    TimesZero(a - base);
    TimesZero(b - slope);
    assert base + (a - base) == a && slope + (b - slope) == b;
  }

  lemma TimesZero(a: real)
    ensures Mul(a, 0.0) == 0.0
  {
  }

  lemma NormalEquations(p: seq<Point>, mx: real, my: real, cxx: real, cxy: real, slope: real)
    requires Fits(p, mx, my, cxx, cxy) && cxx > 0.0 && slope == Div(cxy, cxx)
    ensures Level(Sy(p), |p| as real, my - Mul(slope, mx), slope, Sx(p)) == 0.0
    ensures Tilt(Sxy(p), my - Mul(slope, mx), Sx(p), slope, Sxx(p)) == 0.0
  {
    hide Sx, Sy, Sxx, Sxy, Mul, Div, Level, Tilt;
    DivideBack(cxy, cxx);
    NormalScalars(|p| as real, mx, my, slope, cxx, Sx(p), Sy(p), Sxx(p), Sxy(p));
  }

  lemma NormalScalars(n: real, mx: real, my: real, s: real, cxx: real, sx: real, sy: real, sxx: real, sxy: real)
    requires sx == Mul(n, mx) && sy == Mul(n, my)
    requires cxx == sxx - Mul(n, Mul(mx, mx)) && Mul(cxx, s) == sxy - Mul(n, Mul(mx, my))
    ensures Level(sy, n, my - Mul(s, mx), s, sx) == 0.0
    ensures Tilt(sxy, my - Mul(s, mx), sx, s, sxx) == 0.0
  {
    assert n * (my - s * mx) == n * my - s * (n * mx) by { assert n * (s * mx) == s * (n * mx); }
    assert (my - s * mx) * (n * mx) == n * (mx * my) - s * (n * (mx * mx)) by {
      assert my * (n * mx) == n * (mx * my);
      assert (s * mx) * (n * mx) == s * (n * (mx * mx));
    }
    assert s * sxx == s * cxx + s * (n * (mx * mx));
  }

  /** Timestamps that lie exactly on a line give exactly its slope. */
  lemma ExactLine(p: seq<Point>, mx: real, my: real, cxx: real, cxy: real, c: real)
    requires Fits(p, mx, my, cxx, cxy) && cxx > 0.0
    requires forall k | 0 <= k < |p| :: p[k].y == Mul(c, p[k].x)
    ensures Div(cxy, cxx) == c
  {
    hide Mul, Div;
    SumsOnLine(p, c);
    hide Sx, Sy, Sxx, Sxy;
    LineScalars(|p| as real, mx, my, c, cxx, cxy, Sx(p), Sy(p), Sxx(p), Sxy(p));
  }

  lemma LineScalars(n: real, mx: real, my: real, c: real, cxx: real, cxy: real, sx: real, sy: real, sxx: real, sxy: real)
    requires n >= 0.0 && sx == Mul(n, mx) && sy == Mul(n, my) && sy == Mul(c, sx) && sxy == Mul(c, sxx)
    requires cxx == sxx - Mul(n, Mul(mx, mx)) && cxy == sxy - Mul(n, Mul(mx, my)) && cxx > 0.0
    ensures Div(cxy, cxx) == c
  {
    hide Mul, Div;
    Rearrange(c, n, mx, my);
    Factor(c, sxx, Mul(n, Mul(mx, mx)));
    DivideOut(c, cxx);
  }

  lemma Rearrange(c: real, n: real, mx: real, my: real)
    ensures Mul(n, Mul(mx, my)) == Mul(mx, Mul(n, my))
    ensures Mul(mx, Mul(c, Mul(n, mx))) == Mul(c, Mul(n, Mul(mx, mx)))
  {
    assert mx * (c * (n * mx)) == c * (mx * (n * mx));
    assert mx * (n * mx) == n * (mx * mx);
  }

  lemma Factor(c: real, a: real, b: real)
    ensures Mul(c, a) - Mul(c, b) == Mul(c, a - b)
  {
  }

  lemma DivideOut(c: real, d: real)
    requires d != 0.0
    ensures Div(Mul(c, d), d) == c
  {
  }

  lemma {:induction false} SumsOnLine(p: seq<Point>, c: real)
    requires forall k | 0 <= k < |p| :: p[k].y == Mul(c, p[k].x)
    ensures Sy(p) == Mul(c, Sx(p)) && Sxy(p) == Mul(c, Sxx(p))
    decreases |p|
  {
    hide Mul;
    if p == [] {
      TimesZero(c);
    } else {
      var r, x := p[..|p| - 1], p[|p| - 1].x;
      SumsOnLine(r, c);
      OnLine(c, Sx(r), Sxx(r), x);
    }
  }

  lemma OnLine(c: real, sx: real, sxx: real, x: real)
    ensures Mul(c, sx) + Mul(c, x) == Mul(c, sx + x)
    ensures Mul(c, sxx) + Mul(x, Mul(c, x)) == Mul(c, sxx + Mul(x, x))
  {
    assert x * (c * x) == c * (x * x);
  }

  // ---------------------------------------------------------------------------
  // Sequence numbers
  // ---------------------------------------------------------------------------

  /** A stamped sample. */
  datatype Obs = Obs(seqno: nat, ts: int)

  /** 32-bit subtraction. */
  function Step(from: nat, to: nat): (d: nat)
    ensures d < TWO32
  {
    (to - from) % TWO32
  }

  predicate GoodStep(from: nat, to: nat) { 1 <= Step(from, to) <= MAX_SEQ_JUMP }

  /** The last sample's position, counted from the first. */
  ghost function Position(seen: seq<Obs>): int {
    if |seen| <= 1 then 0
    else Position(seen[..|seen| - 1]) + Step(seen[|seen| - 2].seqno, seen[|seen| - 1].seqno)
  }

  ghost function PointsOf(seen: seq<Obs>): (p: seq<Point>)
    ensures |p| == |seen|
  {
    if seen == [] then []
    else PointsOf(seen[..|seen| - 1]) + [Point(Position(seen) as real, (seen[|seen| - 1].ts - seen[0].ts) as real)]
  }

  ghost function Steps(seen: seq<Obs>): nat {
    if |seen| <= 1 then 0
    else Steps(seen[..|seen| - 1]) + (if Step(seen[|seen| - 2].seqno, seen[|seen| - 1].seqno) != 1 then 1 else 0)
  }

  ghost function Repeats(seen: seq<Obs>): nat {
    if |seen| <= 1 then 0
    else Repeats(seen[..|seen| - 1]) + (if seen[|seen| - 2].ts == seen[|seen| - 1].ts then 1 else 0)
  }

  ghost predicate Accepted(seen: seq<Obs>) {
    && (forall k | 0 <= k < |seen| :: 0 < seen[k].ts)
    && (forall k | 0 < k < |seen| :: GoodStep(seen[k - 1].seqno, seen[k].seqno))
  }

  lemma {:induction false} HistoryGrows(seen: seq<Obs>, o: Obs)
    ensures PointsOf(seen + [o]) ==
            PointsOf(seen) + [Point(Position(seen + [o]) as real, (o.ts - (seen + [o])[0].ts) as real)]
    ensures seen != [] ==>
              var last := seen[|seen| - 1];
              && Position(seen + [o]) == Position(seen) + Step(last.seqno, o.seqno)
              && Steps(seen + [o]) == Steps(seen) + (if Step(last.seqno, o.seqno) != 1 then 1 else 0)
              && Repeats(seen + [o]) == Repeats(seen) + (if last.ts == o.ts then 1 else 0)
  {
    hide Step;
    assert (seen + [o])[..|seen|] == seen;
  }

  /** The stream really was at these positions, a few samples lost in between now and then,
      and numbered them modulo 2^32. */
  ghost predicate Stream(seen: seq<Obs>, pos: seq<int>, offset: nat) {
    && |pos| == |seen|
    && (forall k | 0 <= k < |seen| :: 0 <= pos[k] && seen[k].seqno == (offset + pos[k]) % TWO32)
    && (forall k | 0 < k < |pos| :: pos[k - 1] < pos[k] <= pos[k - 1] + MAX_SEQ_JUMP)
  }

  lemma StepIsTrue(a: nat, b: nat)
    requires a < b <= a + MAX_SEQ_JUMP
    ensures Step(a % TWO32, b % TWO32) == b - a && GoodStep(a % TWO32, b % TWO32)
  {
    var k := a / TWO32;
    assert a == k * TWO32 + a % TWO32;
    var j := b / TWO32;
    assert b == j * TWO32 + b % TWO32;
    assert j == k || j == k + 1;
  }

  /** Whatever is lost and however often the number wraps, the position is recovered
      exactly, and the sample is accepted. */
  lemma {:induction false} PositionRecovered(seen: seq<Obs>, pos: seq<int>, offset: nat, k: nat)
    requires Stream(seen, pos, offset) && k < |seen|
    ensures Position(seen[..k + 1]) == pos[k] - pos[0]
    ensures 0 < k ==> GoodStep(seen[k - 1].seqno, seen[k].seqno)
    decreases k
  {
    hide Step, GoodStep;
    if 0 < k {
      StepIsTrue(offset + pos[k - 1], offset + pos[k]);
      PositionRecovered(seen, pos, offset, k - 1);
      assert seen[..k + 1][..k] == seen[..k];
    }
  }

  /** How often samples are missing between neighbours. */
  ghost function Losses(pos: seq<int>): nat {
    if |pos| <= 1 then 0 else Losses(pos[..|pos| - 1]) + (if pos[|pos| - 1] != pos[|pos| - 2] + 1 then 1 else 0)
  }

  /** The gap counter counts exactly the places where the stream lost samples. */
  lemma {:induction false} GapsAreLosses(seen: seq<Obs>, pos: seq<int>, offset: nat, k: nat)
    requires Stream(seen, pos, offset) && k < |seen|
    ensures Steps(seen[..k + 1]) == Losses(pos[..k + 1])
    decreases k
  {
    hide Step, GoodStep;
    if 0 < k {
      StepIsTrue(offset + pos[k - 1], offset + pos[k]);
      GapsAreLosses(seen, pos, offset, k - 1);
      assert seen[..k + 1][..k] == seen[..k] && pos[..k + 1][..k] == pos[..k];
    }
  }

  lemma {:induction false} PointAt(seen: seq<Obs>, k: nat)
    requires k < |seen|
    ensures PointsOf(seen)[k] == Point(Position(seen[..k + 1]) as real, (seen[k].ts - seen[0].ts) as real)
    decreases |seen|
  {
    hide Position;
    var n := |seen| - 1;
    if k < n {
      PointAt(seen[..n], k);
      assert seen[..n][..k + 1] == seen[..k + 1];
    } else {
      assert seen[..k + 1] == seen;
    }
  }

  /** A stream whose timestamps are exactly affine in the position gives exactly its spacing. */
  lemma {:induction false} ExactSpacing(
    seen: seq<Obs>, pos: seq<int>, offset: nat, c: real, mx: real, my: real, cxx: real, cxy: real)
    requires Stream(seen, pos, offset) && Fits(PointsOf(seen), mx, my, cxx, cxy) && cxx > 0.0
    requires forall k | 0 <= k < |seen| :: (seen[k].ts - seen[0].ts) as real == Mul(c, (pos[k] - pos[0]) as real)
    ensures Div(cxy, cxx) == c
  {
    hide Mul, Div, Fits, PointsOf;
    var p := PointsOf(seen);
    forall k | 0 <= k < |p|
      ensures p[k].y == Mul(c, p[k].x)
    {
      PositionRecovered(seen, pos, offset, k);
      PointAt(seen, k);
    }
    ExactLine(p, mx, my, cxx, cxy, c);
  }

  // ---------------------------------------------------------------------------
  // The calibrator
  // ---------------------------------------------------------------------------

  datatype Result =
    | Restarted | RateUnknown | TooFew | Batched
    | Fitted(spacing: real, hz: Rate)

  /** A fitted spacing of zero has no rate. */
  datatype Rate = Infinite | Rate(hz: real, driftPpm: real)

  /** The fit of the points so far; from two samples on the positions are spread out. */
  ghost predicate FitOk(p: seq<Point>, mx: real, my: real, cxx: real, cxy: real) {
    Fits(p, mx, my, cxx, cxy) && 0.0 <= cxx && (2 <= |p| ==> 0.0 < cxx) && (|p| <= 1 ==> mx == 0.0)
  }

  /** What is remembered of the samples seen. */
  ghost predicate Tracked(seen: seq<Obs>, lastSeq: nat, lastTs: int, firstTs: int, x: int, gaps: nat, repeated: nat) {
    && Accepted(seen)
    && (seen != [] ==>
          && seen[|seen| - 1] == Obs(lastSeq, lastTs) && firstTs == seen[0].ts
          && x == Position(seen) && 0 <= x && (x == 0 ==> |seen| == 1))
    && gaps == Steps(seen) && repeated == Repeats(seen)
  }

  lemma NothingYet()
    ensures Tracked([], 0, 0, 0, 0, 0, 0) && PointsOf([]) == [] && FitOk([], 0.0, 0.0, 0.0, 0.0)
  {
  }

  lemma TrackFirst(o: Obs)
    requires 0 < o.ts
    ensures Tracked([o], o.seqno, o.ts, o.ts, 0, 0, 0)
    ensures PointsOf([]) == [] && PointsOf([o]) == PointsOf([]) + [Point(0 as real, (o.ts - o.ts) as real)]
  {
  }

  lemma NothingTracked(lastSeq: nat, lastTs: int, firstTs: int, x: int, gaps: nat, repeated: nat)
    requires Tracked([], lastSeq, lastTs, firstTs, x, gaps, repeated)
    ensures gaps == 0 && repeated == 0
  {
  }

  lemma LastTracked(seen: seq<Obs>, lastSeq: nat, lastTs: int, firstTs: int, x: int, gaps: nat, repeated: nat)
    requires Tracked(seen, lastSeq, lastTs, firstTs, x, gaps, repeated) && seen != []
    ensures seen[|seen| - 1] == Obs(lastSeq, lastTs) && 0 <= x
  {
  }

  lemma {:induction false} TrackNext(
    seen: seq<Obs>, lastSeq: nat, lastTs: int, firstTs: int, x: int, gaps: nat, repeated: nat, o: Obs)
    requires Tracked(seen, lastSeq, lastTs, firstTs, x, gaps, repeated) && seen != []
    requires 0 < o.ts && GoodStep(lastSeq, o.seqno)
    ensures
      var d := Step(lastSeq, o.seqno);
      && 1 <= d
      && Tracked(seen + [o], o.seqno, o.ts, firstTs, x + d, if d != 1 then gaps + 1 else gaps,
                 if o.ts == lastTs then repeated + 1 else repeated)
      && PointsOf(seen + [o]) == PointsOf(seen) + [Point((x + d) as real, (o.ts - firstTs) as real)]
  {
    HistoryGrows(seen, o);
    hide Position, Steps, Repeats, PointsOf;
  }

  class ClockCalibrator {
    var nominal: nat
    var haveFirst: bool
    var broken: bool
    var lastSeq: nat
    var lastTs: int
    var firstTs: int
    var x: int
    var n: nat
    var meanX: real
    var meanY: real
    var cxx: real
    var cxy: real
    var gaps: nat
    var repeated: nat
    /** The samples the fit is made of. */
    ghost var seen: seq<Obs>

    ghost predicate Valid()
      reads this
    {
      && n == |seen| && (haveFirst <==> seen != [])
      && Tracked(seen, lastSeq, lastTs, firstTs, x, gaps, repeated)
      && FitOk(PointsOf(seen), meanX, meanY, cxx, cxy)
    }

    constructor (nominalHz: nat)
      ensures Valid() && seen == [] && !broken && nominal == nominalHz
    {
      nominal, haveFirst, broken, lastSeq, lastTs, firstTs, x := nominalHz, false, false, 0, 0, 0, 0;
      n, meanX, meanY, cxx, cxy, gaps, repeated := 0, 0.0, 0.0, 0.0, 0.0, 0, 0;
      seen := [];
      new;
      NothingYet();
      hide FitOk, Tracked, PointsOf;
    }

    /** An unstamped sample is ignored; one that does not follow the last ends the fit; any
        other becomes part of it. */
    method Observe(seqno: nat, ts: int)
      requires Valid() && seqno < TWO32
      modifies this
      ensures Valid() && nominal == old(nominal)
      ensures
        if old(broken) || ts <= 0 then seen == old(seen) && broken == old(broken)
        else if old(seen) != [] && !GoodStep(old(seen)[|old(seen)| - 1].seqno, seqno) then seen == old(seen) && broken
        else seen == old(seen) + [Obs(seqno, ts)] && !broken
    {
      hide FitOk, Tracked, PointsOf, GoodStep;
      if ts <= 0 || broken { return; }
      var follows := Place(seqno, ts);
      if !follows {
        broken := true;
        return;
      }
      lastSeq, lastTs := seqno, ts;
      ghost var before := PointsOf(seen);
      seen := seen + [Obs(seqno, ts)];
      Moments((ts - firstTs) as real, before);
    }

    /** Finds the sample's position, unless the sequence has restarted. */
    method Place(seqno: nat, ts: int) returns (follows: bool)
      requires Valid() && 0 < ts
      modifies `haveFirst, `firstTs, `x, `gaps, `repeated
      ensures follows <==> seen == [] || GoodStep(seen[|seen| - 1].seqno, seqno)
      ensures !follows ==> Valid()
      ensures follows ==>
                && haveFirst && 0 <= x && (n == 0 <==> x == 0)
                && Tracked(seen + [Obs(seqno, ts)], seqno, ts, firstTs, x, gaps, repeated)
                && PointsOf(seen + [Obs(seqno, ts)]) == PointsOf(seen) + [Point(x as real, (ts - firstTs) as real)]
    {
      hide FitOk, Tracked, PointsOf, GoodStep, Step;
      ghost var o := Obs(seqno, ts);
      if !haveFirst {
        NothingTracked(lastSeq, lastTs, firstTs, x, gaps, repeated);
        haveFirst, firstTs, x := true, ts, 0;
        TrackFirst(o);
        assert seen == [] && seen + [o] == [o];
        return true;
      }
      LastTracked(seen, lastSeq, lastTs, firstTs, x, gaps, repeated);
      if !GoodStep(lastSeq, seqno) { return false; }
      TrackNext(seen, lastSeq, lastTs, firstTs, x, gaps, repeated, o);
      if Step(lastSeq, seqno) != 1 { gaps := gaps + 1; }
      if ts == lastTs { repeated := repeated + 1; }
      x := x + Step(lastSeq, seqno);
      return true;
    }

    /** The Welford update on the position `x` and a time. */
    method Moments(y: real, ghost before: seq<Point>)
      requires n == |before| && FitOk(before, meanX, meanY, cxx, cxy) && 0 <= x && (n == 0 <==> x == 0)
      modifies `n, `meanX, `meanY, `cxx, `cxy
      ensures n == old(n) + 1 && FitOk(before + [Point(x as real, y)], meanX, meanY, cxx, cxy)
    {
      hide Fits, Mul, Div;
      var px := x as real;
      n := n + 1;
      var dx := px - meanX;
      var mx, my := meanX + Div(dx, n as real), meanY + Div(y - meanY, n as real);
      UpdateFits(before, meanX, meanY, cxx, cxy, px, y, mx, my);
      SpreadGrows(n - 1, meanX, px, mx);
      FirstMean(meanX, px);
      meanX, meanY := mx, my;
      cxx := cxx + Mul(dx, px - meanX);
      cxy := cxy + Mul(dx, y - meanY);
    }

    /** A fit is reported exactly when the run was clean and long enough; the spread of the
        positions is then positive, so the slope is defined. */
    method GetResult(minSamples: nat) returns (r: Result)
      requires Valid()
      ensures r.Fitted? <==> !broken && nominal != 0 && minSamples <= n && 2 <= n && 100 * repeated <= n
      ensures r.Fitted? ==> 0.0 < cxx && r.spacing == Div(cxy, cxx)
      ensures r.Fitted? ==> (r.hz == Infinite <==> r.spacing == 0.0)
      ensures r.Fitted? && r.hz.Rate? ==>
                && Mul(r.hz.hz, r.spacing) == 1000000000.0
                && r.hz.driftPpm == Mul(Div(r.hz.hz, nominal as real) - 1.0, 1000000.0)
      ensures r == Restarted <==> broken
      ensures r == RateUnknown <==> !broken && nominal == 0
      ensures r == TooFew <==> !broken && nominal != 0 && (n < minSamples || n < 2)
    {
      hide Fits, Mul, Div, Tracked;
      if broken { return Restarted; }
      if nominal == 0 { return RateUnknown; }
      if n < minSamples || n < 2 || cxx <= 0.0 { return TooFew; }
      if 100 * repeated > n { return Batched; }
      var spacing := Div(cxy, cxx);
      if spacing == 0.0 { return Fitted(spacing, Infinite); }
      var hz := Div(1000000000.0, spacing);
      DivideBack(1000000000.0, spacing);
      Commutes(hz, spacing);
      var drift := Mul(Div(hz, nominal as real) - 1.0, 1000000.0);
      r := Fitted(spacing, Rate(hz, drift));
    }
  }

  lemma FirstMean(m: real, x: real)
    ensures x == 0.0 && m == 0.0 ==> m + Div(x - m, 1.0) == 0.0
  {
  }

  lemma Commutes(a: real, b: real)
    ensures Mul(a, b) == Mul(b, a)
  {
  }

  // ---------------------------------------------------------------------------
  // A whole calibration
  // ---------------------------------------------------------------------------

  /** The timestamps are exactly affine in the position. */
  ghost predicate Affine(seen: seq<Obs>, pos: seq<int>, c: real) {
    |pos| == |seen| && forall k | 0 <= k < |seen| :: (seen[k].ts - seen[0].ts) as real == Mul(c, (pos[k] - pos[0]) as real)
  }

  lemma ProductIsZero(c: real, d: int)
    requires d != 0
    ensures Mul(c, d as real) == 0.0 <==> c == 0.0
  {
  }

  lemma NeighboursRepeatIff(seen: seq<Obs>, pos: seq<int>, offset: nat, c: real, k: nat)
    requires Stream(seen, pos, offset) && Affine(seen, pos, c) && 0 < k < |seen|
    ensures seen[k - 1].ts == seen[k].ts <==> c == 0.0
  {
    hide Mul;
    var a, b := pos[k] - pos[0], pos[k - 1] - pos[0];
    assert (seen[k].ts - seen[0].ts) as real == Mul(c, a as real);
    assert (seen[k - 1].ts - seen[0].ts) as real == Mul(c, b as real);
    Factor(c, a as real, b as real);
    ProductIsZero(c, a - b);
    assert a as real - b as real == (a - b) as real;
  }

  lemma {:induction false} RepeatsOfStream(seen: seq<Obs>, pos: seq<int>, offset: nat, c: real, k: nat)
    requires Stream(seen, pos, offset) && Affine(seen, pos, c) && k < |seen|
    ensures Repeats(seen[..k + 1]) == if c == 0.0 then k else 0
    decreases k
  {
    hide Mul, Stream, Affine;
    if k > 0 {
      RepeatsOfStream(seen, pos, offset, c, k - 1);
      NeighboursRepeatIff(seen, pos, offset, c, k);
      assert seen[..k + 1][..k] == seen[..k];
    }
  }

  /** From samples to result: a stream with lost samples, a wrapping number and timestamps
      `c` apart per position gives exactly `c`, from two samples on. */
  method Calibrate(obs: seq<Obs>, ghost pos: seq<int>, ghost offset: nat, ghost c: real, nominalHz: nat, minSamples: nat)
    returns (r: Result)
    requires Stream(obs, pos, offset) && Affine(obs, pos, c) && forall k | 0 <= k < |obs| :: 0 < obs[k].ts
    ensures r.Fitted? <==> nominalHz != 0 && minSamples <= |obs| && 2 <= |obs| && c != 0.0
    ensures r.Fitted? ==> r.spacing == c && r.hz.Rate? && Mul(r.hz.hz, c) == 1000000000.0
  {
    hide FitOk, Tracked, GoodStep, Mul, Div, PointsOf, Fits, Affine;
    var cal := new ClockCalibrator(nominalHz);
    for i := 0 to |obs|
      invariant fresh(cal) && cal.Valid() && cal.seen == obs[..i] && !cal.broken && cal.nominal == nominalHz
    {
      PositionRecovered(obs, pos, offset, i);
      cal.Observe(obs[i].seqno, obs[i].ts);
      assert obs[..i + 1] == obs[..i] + [obs[i]];
    }
    assert obs[..|obs|] == obs;
    r := cal.GetResult(minSamples);
    hide Stream;
    RepeatsAre(obs, cal.lastSeq, cal.lastTs, cal.firstTs, cal.x, cal.gaps, cal.repeated);
    if obs != [] { RepeatsOfStream(obs, pos, offset, c, |obs| - 1); }
    if r.Fitted? { SpacingIs(obs, pos, offset, c, cal.meanX, cal.meanY, cal.cxx, cal.cxy); }
  }

  lemma RepeatsAre(seen: seq<Obs>, lastSeq: nat, lastTs: int, firstTs: int, x: int, gaps: nat, repeated: nat)
    requires Tracked(seen, lastSeq, lastTs, firstTs, x, gaps, repeated)
    ensures repeated == Repeats(seen)
  {
  }

  lemma SpacingIs(seen: seq<Obs>, pos: seq<int>, offset: nat, c: real, mx: real, my: real, cxx: real, cxy: real)
    requires Stream(seen, pos, offset) && Affine(seen, pos, c) && FitOk(PointsOf(seen), mx, my, cxx, cxy) && cxx > 0.0
    ensures Div(cxy, cxx) == c
  {
    hide Mul, Div, Fits;
    ExactSpacing(seen, pos, offset, c, mx, my, cxx, cxy);
  }
}
