/**
 * The pieces of JavaScript's `Math` the games use, on exact reals, and the
 * order facts about real division that their proofs share.
 */
module JsMath {

  function Max(a: real, b: real): real { if a < b then b else a }
  function Min(a: real, b: real): real { if a < b then a else b }

  /** `Math.round`: the nearest integer, halves rounded up. */
  function Round(x: real): (r: int)
    ensures (r as real) - 0.5 <= x < (r as real) + 0.5
  {
    (x + 0.5).Floor
  }

  /** Rounding never reverses an order. */
  lemma RoundMonotone(x: real, y: real)
    requires x <= y
    ensures Round(x) <= Round(y)
  {
  }

  /** Dividing by a positive number preserves an order. */
  lemma DivideMonotone(a: real, b: real, c: real)
    requires c > 0.0 && a <= b
    ensures a / c <= b / c
  {
    assert b / c - a / c == (b - a) / c;
  }

  /** Dividing by a positive `k` preserves comparison with `b`. */
  lemma QuotientBelow(a: real, k: real, b: real)
    requires k > 0.0
    ensures a / k < b <==> a < b * k
  {
    assert (a / k) * k == a;
    if a / k < b {
      assert (a / k) * k < b * k;
    } else {
      assert (a / k) * k >= b * k;
    }
  }
}
