/**
 * The smoothing buffer: a `deque(maxlen=w)` of accepted raw bpm values, reduced to one
 * smoothed value by the mean or by `sorted(q)[len(q)//2]`.
 */
module Smoothing {
  import opened Wrappers
  import Stats
  import opened Frames

  /** The `--smooth` choice. */
  datatype Smoother = Mean | Median

  /**
   * `q.append(x)` on a `deque(maxlen=w)`: appends `x` and keeps the last `w` values, evicting
   * the oldest ones.
   */
  function DequePush(q: seq<real>, x: real, w: nat): (r: seq<real>)
    ensures |r| == if |q| < w then |q| + 1 else w
    ensures r == (q + [x])[|q| + 1 - |r|..]
  {
    var k := if |q| < w then 0 else |q| + 1 - w;
    (q + [x])[k..]
  }

  /** Pushing a value of `[lo, hi]` onto a buffer of such values keeps every value in `[lo, hi]`. */
  lemma PushBounded(q: seq<real>, x: real, w: nat, lo: real, hi: real)
    requires Stats.Bounded(q, lo, hi) && lo <= x <= hi
    ensures Stats.Bounded(DequePush(q, x, w), lo, hi)
  {
    var r := DequePush(q, x, w);
    var d := |q| + 1 - |r|;
    forall i | 0 <= i < |r| ensures lo <= r[i] <= hi {
      assert r[i] == (q + [x])[d + i];
    }
  }

  /**
   * `sorted(q)[len(q)//2]` or `sum(q)/len(q)`; on an empty buffer (which only a `maxlen` of 0
   * leaves behind) the first raises IndexError and the second ZeroDivisionError.
   */
  function Smooth(q: seq<real>, how: Smoother): Result<real, PyError>
  {
    if q == [] then Err(if how == Median then IndexError else ZeroDivisionError)
    else if how == Median then Ok(Stats.UpperMiddle(q))
    else Ok(Stats.Mean(q))
  }

  /** The smoothed value of a buffer of values in `[lo, hi]` lies in `[lo, hi]`. */
  lemma SmoothBounded(q: seq<real>, how: Smoother, lo: real, hi: real)
    requires q != [] && Stats.Bounded(q, lo, hi)
    ensures Smooth(q, how).Ok?
    ensures lo <= Smooth(q, how).value <= hi
  {
    if how == Median {
      Stats.UpperMiddleBounded(q, lo, hi);
    } else {
      Stats.MeanBounded(q, lo, hi);
    }
  }
}
