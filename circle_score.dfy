/**
 * The freehand circle scorer of the drawing game (`calculateCircleScore`).
 *
 * A stroke is scored by how constant its distance from its own centroid is
 * (the mean absolute deviation of that distance, relative to its mean) and by
 * how far its last point ends from its first. Coordinates are reals; the
 * Euclidean length `Math.sqrt(dx*dx + dy*dy)` is a parameter `norm` of which
 * only non-negativity and `norm(0, 0) == 0` are assumed where needed.
 */
module CircleScore {
  import opened JsMath

  /** One sampled pointer position; the timestamp is carried, never scored. */
  datatype Point = Point(x: real, y: real, timestamp: int)

  /** The length of a displacement `(dx, dy)`. */
  type Norm = (real, real) -> real

  /** Strokes shorter than this score 0. */
  const MinPoints: nat := 10
  /** A mean radius below this is a "dot" ... */
  const DegenerateRadius: real := 10.0
  /** ... and scores exactly this. */
  const DegenerateScore: real := 10.0

  /** What the scorer needs of a length: never negative, zero for no displacement. */
  ghost predicate IsNorm(norm: Norm)
  {
    (forall dx: real, dy: real :: norm(dx, dy) >= 0.0) && norm(0.0, 0.0) == 0.0
  }

  /** Scaling a displacement by `c` scales its length by `c` (true of the Euclidean length for c > 0). */
  ghost predicate ScalesBy(norm: Norm, c: real)
  {
    forall dx: real, dy: real {:trigger ScaledNorm(norm, c, dx, dy)} ::
      ScaledNorm(norm, c, dx, dy) == c * norm(dx, dy)
  }

  /** The length of the displacement `(dx, dy)` scaled by `c`. */
  ghost function ScaledNorm(norm: Norm, c: real, dx: real, dy: real): real
  {
    norm(c * dx, c * dy)
  }

  function Abs(r: real): real { if r < 0.0 then -r else r }

  /** Left-to-right sum, as `reduce` computes it. */
  function Sum(s: seq<real>): real
  {
    if |s| == 0 then 0.0 else Sum(s[..|s| - 1]) + s[|s| - 1]
  }

  /** The mean of a non-empty sequence: its sum divided by its length. */
  function Mean(s: seq<real>): real
    requires |s| > 0
  {
    Sum(s) / (|s| as real)
  }

  function Xs(pts: seq<Point>): (xs: seq<real>)
    ensures |xs| == |pts| && forall i :: 0 <= i < |pts| ==> xs[i] == pts[i].x
  {
    seq(|pts|, i requires 0 <= i < |pts| => pts[i].x)
  }

  function Ys(pts: seq<Point>): (ys: seq<real>)
    ensures |ys| == |pts| && forall i :: 0 <= i < |pts| ==> ys[i] == pts[i].y
  {
    seq(|pts|, i requires 0 <= i < |pts| => pts[i].y)
  }

  /** The mean position of the stroke. */
  function CentroidX(pts: seq<Point>): real
    requires |pts| > 0
  {
    Mean(Xs(pts))
  }

  function CentroidY(pts: seq<Point>): real
    requires |pts| > 0
  {
    Mean(Ys(pts))
  }

  /** The distance of every point from the centroid. */
  function Radii(pts: seq<Point>, norm: Norm): (radii: seq<real>)
    requires |pts| > 0
    ensures |radii| == |pts|
    ensures forall i :: 0 <= i < |pts| ==>
      radii[i] == norm(pts[i].x - CentroidX(pts), pts[i].y - CentroidY(pts))
    ensures IsNorm(norm) ==> forall i :: 0 <= i < |radii| ==> radii[i] >= 0.0
  {
    var cx, cy := CentroidX(pts), CentroidY(pts);
    seq(|pts|, i requires 0 <= i < |pts| => norm(pts[i].x - cx, pts[i].y - cy))
  }

  /** The mean radius; never negative. */
  function AverageRadius(pts: seq<Point>, norm: Norm): (r: real)
    requires |pts| > 0
    ensures IsNorm(norm) ==> r >= 0.0
  {
    RadiiSumNonNegative(pts, norm);
    Mean(Radii(pts, norm))
  }

  /** How far each radius is from the mean radius. */
  function Deviations(pts: seq<Point>, norm: Norm): (devs: seq<real>)
    requires |pts| > 0
    ensures |devs| == |pts|
    ensures forall i :: 0 <= i < |pts| ==>
      devs[i] == Abs(Radii(pts, norm)[i] - AverageRadius(pts, norm))
    ensures forall i :: 0 <= i < |devs| ==> devs[i] >= 0.0
  {
    var radii, avg := Radii(pts, norm), AverageRadius(pts, norm);
    seq(|pts|, i requires 0 <= i < |pts| => Abs(radii[i] - avg))
  }

  /** The mean absolute deviation of the radius. */
  function AverageDeviation(pts: seq<Point>, norm: Norm): (d: real)
    requires |pts| > 0
    ensures d >= 0.0
  {
    SumNonNegative(Deviations(pts, norm));
    Mean(Deviations(pts, norm))
  }

  /** The distance between the first and the last point. */
  function ClosureGap(pts: seq<Point>, norm: Norm): (g: real)
    requires |pts| > 0
    ensures IsNorm(norm) ==> g >= 0.0
    ensures IsNorm(norm) && pts[0].x == pts[|pts| - 1].x && pts[0].y == pts[|pts| - 1].y ==> g == 0.0
  {
    norm(pts[0].x - pts[|pts| - 1].x, pts[0].y - pts[|pts| - 1].y)
  }

  /**
   * The score of a stroke whose mean radius is at least the degenerate
   * threshold: a base of `1 - 2 * deviation ratio` (at least 0.1), minus a
   * closure penalty of `0.15 * gap / radius` (at most 0.2), as a percentage
   * clamped to [10, 100].
   */
  function FitScore(avgRadius: real, avgDeviation: real, gap: real): (r: real)
    requires avgRadius > 0.0
    ensures DegenerateScore <= r <= 100.0
  {
    var deviationRatio := avgDeviation / avgRadius;
    var base := Max(0.1, 1.0 - deviationRatio * 2.0);
    var gapPenalty := Min(0.2, (gap / avgRadius) * 0.15);
    Max(10.0, Min(100.0, (base - gapPenalty) * 100.0))
  }

  /** `calculateCircleScore`: 0 for too few points, 10 for a dot, otherwise the fit score. */
  function Score(pts: seq<Point>, norm: Norm): (r: real)
    ensures r == 0.0 <==> |pts| < MinPoints
    ensures |pts| >= MinPoints ==> DegenerateScore <= r <= 100.0
    ensures |pts| >= MinPoints && AverageRadius(pts, norm) < DegenerateRadius ==> r == DegenerateScore
  {
    if |pts| < MinPoints then 0.0
    else
      var avgRadius := AverageRadius(pts, norm);
      if avgRadius < DegenerateRadius then DegenerateScore
      else FitScore(avgRadius, AverageDeviation(pts, norm), ClosureGap(pts, norm))
  }

  // ---------------------------------------------------------------------
  // Sums

  lemma {:induction false} SumConstant(s: seq<real>, v: real)
    requires forall i :: 0 <= i < |s| ==> s[i] == v
    ensures Sum(s) == (|s| as real) * v
  {
    if |s| > 0 {
      SumConstant(s[..|s| - 1], v);
    }
  }

  lemma {:induction false} SumNonNegative(s: seq<real>)
    requires forall i :: 0 <= i < |s| ==> s[i] >= 0.0
    ensures Sum(s) >= 0.0
  {
    if |s| > 0 {
      SumNonNegative(s[..|s| - 1]);
    }
  }

  lemma {:induction false} SumScaled(s: seq<real>, t: seq<real>, c: real)
    requires |s| == |t|
    requires forall i :: 0 <= i < |s| ==> t[i] == c * s[i]
    ensures Sum(t) == c * Sum(s)
  {
    if |s| > 0 {
      SumScaled(s[..|s| - 1], t[..|t| - 1], c);
    }
  }

  // ---------------------------------------------------------------------
  // Properties of the score

  /** Under a norm the radii, and so their sum, are never negative. */
  lemma RadiiSumNonNegative(pts: seq<Point>, norm: Norm)
    requires |pts| > 0
    ensures IsNorm(norm) ==> Sum(Radii(pts, norm)) >= 0.0
  {
    if IsNorm(norm) {
      SumNonNegative(Radii(pts, norm));
    }
  }

  /** A stroke that never leaves one column (row) has its centroid on that column (row). */
  lemma CentroidOfLevelStroke(pts: seq<Point>)
    requires |pts| > 0
    ensures (forall i :: 0 <= i < |pts| ==> pts[i].x == pts[0].x) ==> CentroidX(pts) == pts[0].x
    ensures (forall i :: 0 <= i < |pts| ==> pts[i].y == pts[0].y) ==> CentroidY(pts) == pts[0].y
  {
    if forall i :: 0 <= i < |pts| ==> pts[i].x == pts[0].x {
      MeanOfConstant(Xs(pts), pts[0].x);
    }
    if forall i :: 0 <= i < |pts| ==> pts[i].y == pts[0].y {
      MeanOfConstant(Ys(pts), pts[0].y);
    }
  }



  /** A larger mean deviation never raises the score (radius and gap fixed). */
  lemma DeviationNeverRaisesScore(avgRadius: real, d1: real, d2: real, gap: real)
    requires avgRadius > 0.0 && d1 <= d2
    ensures FitScore(avgRadius, d2, gap) <= FitScore(avgRadius, d1, gap)
  {
    assert d1 / avgRadius <= d2 / avgRadius by {
      DivideMonotone(d1, d2, avgRadius);
    }
  }

  /**
   * A strictly larger mean deviation strictly lowers the score, unless the
   * score is already at its floor of 10 (radius and gap fixed).
   */
  lemma DeviationLowersScore(avgRadius: real, d1: real, d2: real, gap: real)
    requires avgRadius > 0.0 && 0.0 <= d1 < d2 && gap >= 0.0
    ensures FitScore(avgRadius, d2, gap) < FitScore(avgRadius, d1, gap) || FitScore(avgRadius, d2, gap) == DegenerateScore
  {
    assert d1 / avgRadius < d2 / avgRadius by {
      assert d2 / avgRadius - d1 / avgRadius == (d2 - d1) / avgRadius;
    }
    assert d1 / avgRadius >= 0.0 && gap / avgRadius >= 0.0;
  }

  /** A larger closure gap never raises the score (radius and deviation fixed). */
  lemma GapNeverRaisesScore(avgRadius: real, dev: real, g1: real, g2: real)
    requires avgRadius > 0.0 && g1 <= g2
    ensures FitScore(avgRadius, dev, g2) <= FitScore(avgRadius, dev, g1)
  {
    assert g1 / avgRadius <= g2 / avgRadius by {
      DivideMonotone(g1, g2, avgRadius);
    }
  }

  /** With non-negative deviation and gap, the fit score is 100 exactly when both are zero. */
  lemma FitScoreHundredIff(avgRadius: real, dev: real, gap: real)
    requires avgRadius > 0.0 && dev >= 0.0 && gap >= 0.0
    ensures FitScore(avgRadius, dev, gap) == 100.0 <==> dev == 0.0 && gap == 0.0
  {
    var ratio := dev / avgRadius;
    var penalty := (gap / avgRadius) * 0.15;
    if dev > 0.0 {
      assert ratio > 0.0;
    }
    if gap > 0.0 {
      assert penalty > 0.0;
    }
    assert ratio >= 0.0 && penalty >= 0.0;
  }

  /**
   * A stroke all of whose points lie at the same distance (at least the
   * degenerate threshold) from its centroid, and whose last point coincides
   * with its first, scores exactly 100.
   */
  lemma PerfectCircleScoresHundred(pts: seq<Point>, norm: Norm, radius: real)
    requires |pts| >= MinPoints && IsNorm(norm) && radius >= DegenerateRadius
    requires forall i :: 0 <= i < |pts| ==> Radii(pts, norm)[i] == radius
    requires pts[0].x == pts[|pts| - 1].x && pts[0].y == pts[|pts| - 1].y
    ensures Score(pts, norm) == 100.0
  {
    MeanOfConstant(Radii(pts, norm), radius);
    assert AverageRadius(pts, norm) == radius;
    forall i | 0 <= i < |pts|
      ensures Deviations(pts, norm)[i] == 0.0
    {
    }
    MeanOfConstant(Deviations(pts, norm), 0.0);
    assert AverageDeviation(pts, norm) == 0.0;
    assert ClosureGap(pts, norm) == 0.0;
    FitScoreHundredIff(radius, 0.0, 0.0);
  }

  lemma MeanOfConstant(s: seq<real>, v: real)
    requires |s| > 0
    requires forall i :: 0 <= i < |s| ==> s[i] == v
    ensures Mean(s) == v
  {
    SumConstant(s, v);
    MeanIs(s, (|s| as real) * v);
  }

  /** Every coordinate multiplied by `c`. */
  function Scaled(pts: seq<Point>, c: real): (q: seq<Point>)
    ensures |q| == |pts|
    ensures forall i :: 0 <= i < |pts| ==>
      q[i] == Point(c * pts[i].x, c * pts[i].y, pts[i].timestamp)
  {
    seq(|pts|, i requires 0 <= i < |pts| => Point(c * pts[i].x, c * pts[i].y, pts[i].timestamp))
  }

  /** Scaling every element scales the mean. */
  lemma MeanScaled(s: seq<real>, t: seq<real>, c: real)
    requires |s| == |t| > 0
    requires forall i :: 0 <= i < |s| ==> t[i] == c * s[i]
    ensures Mean(t) == c * Mean(s)
  {
    SumScaled(s, t, c);
    MeanIs(s, Sum(s));
    MeanIs(t, Sum(t));
    ScaledMean(Sum(s), Sum(t), c, |s|);
  }

  lemma MeanIs(s: seq<real>, total: real)
    requires |s| > 0 && Sum(s) == total
    ensures Mean(s) == total / (|s| as real)
  {
  }

  lemma ScaledMean(total: real, scaled: real, c: real, n: nat)
    requires n > 0 && scaled == c * total
    ensures scaled / (n as real) == c * (total / (n as real))
  {
  }

  /** Scaling a stroke scales its centroid. */
  lemma ScaledCentroid(pts: seq<Point>, c: real)
    requires |pts| > 0
    ensures CentroidX(Scaled(pts, c)) == c * CentroidX(pts)
    ensures CentroidY(Scaled(pts, c)) == c * CentroidY(pts)
  {
    var q := Scaled(pts, c);
    MeanScaled(Xs(pts), Xs(q), c);
    MeanScaled(Ys(pts), Ys(q), c);
  }

  /** Scaling a stroke scales every radius. */
  lemma ScaledRadii(pts: seq<Point>, norm: Norm, c: real)
    requires |pts| > 0 && ScalesBy(norm, c)
    ensures forall i :: 0 <= i < |pts| ==> Radii(Scaled(pts, c), norm)[i] == c * Radii(pts, norm)[i]
  {
    var q := Scaled(pts, c);
    ScaledCentroid(pts, c);
    forall i | 0 <= i < |pts|
      ensures Radii(q, norm)[i] == c * Radii(pts, norm)[i]
    {
      var dx, dy := pts[i].x - CentroidX(pts), pts[i].y - CentroidY(pts);
      assert q[i].x - CentroidX(q) == c * dx;
      assert q[i].y - CentroidY(q) == c * dy;
      assert ScaledNorm(norm, c, dx, dy) == c * norm(dx, dy);
    }
  }

  /** Scaling a stroke scales its mean radius. */
  lemma ScaledAverageRadius(pts: seq<Point>, norm: Norm, c: real)
    requires |pts| > 0 && ScalesBy(norm, c)
    ensures AverageRadius(Scaled(pts, c), norm) == c * AverageRadius(pts, norm)
  {
    ScaledRadii(pts, norm, c);
    MeanScaled(Radii(pts, norm), Radii(Scaled(pts, c), norm), c);
  }

  /** Scaling a stroke by c > 0 scales its mean deviation. */
  lemma ScaledDeviation(pts: seq<Point>, norm: Norm, c: real)
    requires |pts| > 0 && c > 0.0 && ScalesBy(norm, c)
    ensures AverageDeviation(Scaled(pts, c), norm) == c * AverageDeviation(pts, norm)
  {
    ScaledDeviations(pts, norm, c);
    MeanScaled(Deviations(pts, norm), Deviations(Scaled(pts, c), norm), c);
  }

  /** Scaling a stroke by c > 0 scales every deviation. */
  lemma ScaledDeviations(pts: seq<Point>, norm: Norm, c: real)
    requires |pts| > 0 && c > 0.0 && ScalesBy(norm, c)
    ensures forall i :: 0 <= i < |pts| ==> Deviations(Scaled(pts, c), norm)[i] == c * Deviations(pts, norm)[i]
  {
    var q := Scaled(pts, c);
    ScaledRadii(pts, norm, c);
    ScaledAverageRadius(pts, norm, c);
    var r, rq := AverageRadius(pts, norm), AverageRadius(q, norm);
    forall i | 0 <= i < |pts|
      ensures Deviations(q, norm)[i] == c * Deviations(pts, norm)[i]
    {
      var d := Radii(pts, norm)[i] - r;
      assert Radii(q, norm)[i] - rq == c * d;
      AbsScaled(c, d);
    }
  }

  lemma AbsScaled(c: real, d: real)
    requires c > 0.0
    ensures Abs(c * d) == c * Abs(d)
  {
  }

  /** Scaling a stroke scales its closure gap. */
  lemma ScaledGap(pts: seq<Point>, norm: Norm, c: real)
    requires |pts| > 0 && ScalesBy(norm, c)
    ensures ClosureGap(Scaled(pts, c), norm) == c * ClosureGap(pts, norm)
  {
    var q := Scaled(pts, c);
    var gx, gy := pts[0].x - pts[|pts| - 1].x, pts[0].y - pts[|pts| - 1].y;
    assert q[0].x - q[|q| - 1].x == c * gx;
    assert q[0].y - q[|q| - 1].y == c * gy;
    assert ScaledNorm(norm, c, gx, gy) == c * norm(gx, gy);
  }

  /** The fit score depends only on the ratios deviation/radius and gap/radius. */
  lemma FitScoreScaleFree(avgRadius: real, dev: real, gap: real, c: real, scaledRadius: real, scaledDev: real, scaledGap: real)
    requires avgRadius > 0.0 && c > 0.0 &&
      scaledRadius == c * avgRadius && scaledDev == c * dev && scaledGap == c * gap
    ensures scaledRadius > 0.0
    ensures FitScore(scaledRadius, scaledDev, scaledGap) == FitScore(avgRadius, dev, gap)
  {
    assert scaledDev / scaledRadius == dev / avgRadius;
    assert scaledGap / scaledRadius == gap / avgRadius;
  }

  /**
   * Scaling a stroke by c > 0 leaves its fit score unchanged, since its mean
   * radius, mean deviation and closure gap all scale by c.
   */
  lemma ScaleInvariantFit(pts: seq<Point>, norm: Norm, c: real)
    requires |pts| > 0 && c > 0.0 && ScalesBy(norm, c)
    requires AverageRadius(pts, norm) > 0.0 && AverageRadius(Scaled(pts, c), norm) > 0.0
    ensures FitScore(AverageRadius(Scaled(pts, c), norm), AverageDeviation(Scaled(pts, c), norm),
                     ClosureGap(Scaled(pts, c), norm))
         == FitScore(AverageRadius(pts, norm), AverageDeviation(pts, norm), ClosureGap(pts, norm))
  {
    ScaledAverageRadius(pts, norm, c);
    ScaledDeviation(pts, norm, c);
    ScaledGap(pts, norm, c);
    FitOfScaledMeasures(pts, Scaled(pts, c), norm, c);
  }

  /** Two strokes whose measures differ by a factor c > 0 have the same fit score. */
  lemma FitOfScaledMeasures(pts: seq<Point>, q: seq<Point>, norm: Norm, c: real)
    requires |pts| > 0 && |q| > 0 && c > 0.0
    requires AverageRadius(pts, norm) > 0.0 && AverageRadius(q, norm) > 0.0
    requires AverageRadius(q, norm) == c * AverageRadius(pts, norm)
    requires AverageDeviation(q, norm) == c * AverageDeviation(pts, norm)
    requires ClosureGap(q, norm) == c * ClosureGap(pts, norm)
    ensures FitScore(AverageRadius(q, norm), AverageDeviation(q, norm), ClosureGap(q, norm))
         == FitScore(AverageRadius(pts, norm), AverageDeviation(pts, norm), ClosureGap(pts, norm))
  {
    FitScoreScaleFree(AverageRadius(pts, norm), AverageDeviation(pts, norm), ClosureGap(pts, norm), c,
                      AverageRadius(q, norm), AverageDeviation(q, norm), ClosureGap(q, norm));
  }



  /**
   * Drawing the same shape larger or smaller does not change its score, as
   * long as both copies fall on the same side of the dot threshold: both
   * are fitted the same, or both are dots.
   */
  lemma ScaleInvariantScore(pts: seq<Point>, norm: Norm, c: real)
    requires |pts| >= MinPoints && c > 0.0 && ScalesBy(norm, c)
    requires AverageRadius(pts, norm) >= DegenerateRadius <==> c * AverageRadius(pts, norm) >= DegenerateRadius
    ensures Score(Scaled(pts, c), norm) == Score(pts, norm)
  {
    ScaledAverageRadius(pts, norm, c);
    if AverageRadius(pts, norm) >= DegenerateRadius {
      ScaleInvariantFit(pts, norm, c);
    }
  }
}
