/**
 * The drawing session of the circle game: a stroke is collected while the
 * pointer is down, scored live every fifth point, closed automatically when
 * it returns near its start, and scored for good on release. The best final
 * score is kept.
 */
module ShapeGame {
  import opened Wrappers
  import opened CircleScore

  /** A live score is shown when the stroke length is a multiple of this ... */
  const LiveScoreEvery: nat := 5
  /** ... and exceeds this. */
  const LiveScoreAfter: nat := 10
  /** The stroke closes itself only once it is longer than this ... */
  const AutoCloseAfter: nat := 80
  /** ... and its newest point is closer than this to its first. */
  const AutoCloseDistance: real := 8.0
  /** A release scores the stroke only when it is longer than this. */
  const ReleaseMinPoints: nat := 50
  /** Finishing scores a stroke of at least this many points. */
  const FinishMinPoints: nat := 50

  /** The high score `high` after a finished stroke scored `s`: replaced only by a strictly greater score. */
  function Best(high: real, s: real): (best: real)
    ensures best >= high && best >= s
    ensures best == s || best == high
    ensures best == high <==> s <= high
  {
    if s > high then s else high
  }

  class DrawingSession {
    /** How distances are measured. */
    const norm: Norm
    /** The stroke being drawn, or the last one drawn. */
    var points: seq<Point>
    var isDrawing: bool
    /** The live or final score; `None` is the source's `null`. */
    var score: Option<real>
    /** The best final score (kept in local storage by the source). */
    var highScore: real

    /** Any score shown is a real score of a stroke long enough to be scored. */
    ghost predicate Valid()
      reads this
    {
      score.Some? ==> DegenerateScore <= score.value <= 100.0
    }

    /**
     * Whether a stroke whose newest point is its last has come back to its
     * start: it is past the auto-close length and its closure gap, as the
     * scorer measures it, is under the auto-close distance. The stroke it
     * closes, with its first point appended, then ends where it began, so it
     * is scored with no closure penalty.
     */
    function ClosesLoop(stroke: seq<Point>): (closes: bool)
      requires |stroke| > 0
      ensures closes <==> |stroke| > AutoCloseAfter && ClosureGap(stroke, norm) < AutoCloseDistance
      ensures closes ==> |stroke| >= MinPoints
      ensures closes && IsNorm(norm) ==> ClosureGap(stroke + [stroke[0]], norm) == 0.0
    {
      var start, current := stroke[0], stroke[|stroke| - 1];
      |stroke| > AutoCloseAfter &&
      norm(start.x - current.x, start.y - current.y) < AutoCloseDistance
    }

    /** A fresh session; `saved` is the high score found in storage, if any. */
    constructor (norm: Norm, saved: Option<real>)
      ensures Valid()
      ensures this.norm == norm && points == [] && !isDrawing && score == None
      ensures highScore == if saved.Some? then saved.value else 0.0
    {
      this.norm := norm;
      points := [];
      isDrawing := false;
      score := None;
      highScore := if saved.Some? then saved.value else 0.0;
    }

    /** `resetGame`: forget the stroke and its score. */
    method ResetGame()
      requires Valid()
      modifies this
      ensures Valid()
      ensures points == [] && score == None
      ensures isDrawing == old(isDrawing) && highScore == old(highScore)
    {
      points := [];
      score := None;
    }

    /** `handleStart`: a pointer press starts a new stroke at `p`, clearing a shown score. */
    method Start(p: Point)
      requires Valid()
      modifies this
      ensures Valid()
      ensures isDrawing && points == [p] && score == None
      ensures highScore == old(highScore)
    {
      if score != None {
        ResetGame();
      }
      isDrawing := true;
      points := [p];
    }

    /**
     * `finishDrawing`: score a completed stroke. A stroke shorter than the
     * minimum is discarded; otherwise its score is shown and the high score
     * is raised to it if it is strictly greater.
     */
    method Finish(finalPoints: seq<Point>)
      requires Valid()
      modifies this
      ensures Valid()
      ensures isDrawing == old(isDrawing)
      ensures |finalPoints| < FinishMinPoints ==>
        points == [] && score == None && highScore == old(highScore)
      ensures |finalPoints| >= FinishMinPoints ==>
        points == old(points) &&
        score == Some(Score(finalPoints, norm)) &&
        highScore == Best(old(highScore), Score(finalPoints, norm))
      ensures highScore >= old(highScore)
    {
      if |finalPoints| < FinishMinPoints {
        points := [];
        score := None;
        return;
      }
      var calculated := Score(finalPoints, norm);
      score := Some(calculated);
      if calculated > highScore {
        highScore := calculated;
      }
    }

    /**
     * `handleMove`: while drawing, append `p`; show a live score at every
     * fifth point past the tenth; once the stroke is long enough and `p` is
     * back near the first point, stop drawing and score the stroke closed
     * with a copy of its first point.
     */
    method Move(p: Point)
      requires Valid()
      modifies this
      ensures Valid()
      ensures !old(isDrawing) ==>
        points == old(points) && score == old(score) && !isDrawing && highScore == old(highScore)
      ensures old(isDrawing) ==> points == old(points) + [p]
      ensures old(isDrawing) && ClosesLoop(points) ==>
        !isDrawing &&
        score == Some(Score(points + [points[0]], norm)) &&
        highScore == Best(old(highScore), Score(points + [points[0]], norm))
      ensures old(isDrawing) && !ClosesLoop(points) ==>
        isDrawing && highScore == old(highScore) &&
        score == if |points| % LiveScoreEvery == 0 && |points| > LiveScoreAfter
                 then Some(Score(points, norm)) else old(score)
      ensures highScore >= old(highScore)
    {
      if !isDrawing {
        return;
      }
      var newPoints := points + [p];
      if |newPoints| % LiveScoreEvery == 0 && |newPoints| > LiveScoreAfter {
        score := Some(Score(newPoints, norm));
      }
      if |newPoints| > AutoCloseAfter {
        var start, current := newPoints[0], newPoints[|newPoints| - 1];
        var dist := norm(start.x - current.x, start.y - current.y);
        if dist < AutoCloseDistance {
          isDrawing := false;
          Finish(newPoints + [start]);
        }
      }
      points := newPoints;
    }

    /**
     * `handleEnd`: releasing the pointer stops drawing; a stroke of more than
     * 50 points is finished, a shorter one is discarded.
     */
    method End()
      requires Valid()
      modifies this
      ensures Valid()
      ensures !isDrawing
      ensures !old(isDrawing) ==>
        points == old(points) && score == old(score) && highScore == old(highScore)
      ensures old(isDrawing) && |old(points)| > ReleaseMinPoints ==>
        points == old(points) &&
        score == Some(Score(old(points), norm)) &&
        highScore == Best(old(highScore), Score(points, norm))
      ensures old(isDrawing) && |old(points)| <= ReleaseMinPoints ==>
        points == [] && score == None && highScore == old(highScore)
      ensures highScore >= old(highScore)
    {
      if !isDrawing {
        return;
      }
      isDrawing := false;
      if |points| > ReleaseMinPoints {
        Finish(points);
      } else {
        points := [];
        score := None;
      }
    }
  }

  /**
   * A released stroke of exactly 50 points is discarded, although
   * `finishDrawing` on its own would score it: the two thresholds differ.
   */
  method ReleaseAtFinishThreshold(norm: Norm, stroke: seq<Point>) returns (shown: Option<real>)
    requires |stroke| == FinishMinPoints
    ensures shown == None
  {
    var session := new DrawingSession(norm, None);
    session.Start(stroke[0]);
    var i := 1;
    while i < |stroke|
      invariant 1 <= i <= |stroke|
      invariant session.Valid() && session.isDrawing && session.points == stroke[..i]
      modifies session
    {
      session.Move(stroke[i]);
      i := i + 1;
    }
    session.End();
    shown := session.score;
  }
}
