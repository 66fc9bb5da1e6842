/**
 * The full logger's own signal-to-noise estimate from the power spectrum
 * (a111_breathing_rasp_0902_v2.py, the block under "custom SNR"): the peak bin, the noise set
 * of positive bins outside the five-bin window around it, and 10*log10(peak / median(noise)),
 * falling back to the frame's own `snr` field. `log10` is a parameter: its values are not modelled.
 */
module SnrV2 {
  import opened Wrappers
  import opened Frames
  import Stats
  import ExtractV2

  predicate AllFinite(bins: seq<Sample>)
  {
    forall i :: 0 <= i < |bins| ==> bins[i].Finite?
  }

  /** The float array of an all-finite spectrum. */
  function Reals(bins: seq<Sample>): (xs: seq<real>)
    requires AllFinite(bins)
    ensures |xs| == |bins|
    ensures forall i :: 0 <= i < |bins| ==> xs[i] == bins[i].x
  {
    seq(|bins|, i requires 0 <= i < |bins| && AllFinite(bins) => bins[i].x)
  }

  predicate AnyPositive(xs: seq<real>)
  {
    exists i :: 0 <= i < |xs| && xs[i] > 0.0
  }

  /** `np.nanargmax` on a finite array: the first index holding the maximum. */
  function ArgMax(xs: seq<real>): (p: nat)
    requires |xs| > 0
    ensures p < |xs|
    ensures forall i :: 0 <= i < |xs| ==> xs[i] <= xs[p]
    ensures forall i :: 0 <= i < p ==> xs[i] < xs[p]
  {
    if |xs| == 1 then 0
    else
      var p := ArgMax(xs[..|xs| - 1]);
      if xs[|xs| - 1] > xs[p] then |xs| - 1 else p
  }

  /** `max(0, peak_i-2)`. */
  function WindowLo(p: nat): nat
  {
    if p >= 2 then p - 2 else 0
  }

  /** `min(ps.size, peak_i+3)`. */
  function WindowHi(n: nat, p: nat): nat
  {
    if n < p + 3 then n else p + 3
  }

  /** `xs[xs > 0]`: the strictly positive elements, in order. */
  function Positives(xs: seq<real>): (r: seq<real>)
    ensures Stats.AllPositive(r)
  {
    if xs == [] then []
    else Positives(xs[..|xs| - 1]) + (if xs[|xs| - 1] > 0.0 then [xs[|xs| - 1]] else [])
  }

  /**
   * The noise set for the peak at `p`: `mask[lo:hi] = False; noise = ps[mask]; noise = noise[noise > 0]`,
   * that is the positive bins left of the window followed by the positive bins right of it.
   */
  function NoiseSet(xs: seq<real>, p: nat): seq<real>
    requires p < |xs|
  {
    Positives(xs[..WindowLo(p)] + xs[WindowHi(|xs|, p)..])
  }

  lemma {:induction false} PositivesConcat(a: seq<real>, b: seq<real>)
    ensures Positives(a + b) == Positives(a) + Positives(b)
  {
    if b != [] {
      var n := |b| - 1;
      assert (a + b)[..|a + b| - 1] == a + b[..n];
      PositivesConcat(a, b[..n]);
    } else {
      assert a + b == a;
    }
  }

  lemma {:induction false} PositivesMembers(xs: seq<real>, x: real)
    ensures x in Positives(xs) <==> x in xs && x > 0.0
  {
    if xs != [] {
      var n := |xs| - 1;
      PositivesMembers(xs[..n], x);
      assert xs == xs[..n] + [xs[n]];
    }
  }

  /** Some bin at distance more than two below the peak, or three or more above it, is positive. */
  predicate PositiveOutsideWindow(xs: seq<real>, p: nat)
  {
    exists i :: 0 <= i < |xs| && (i + 2 < p || p + 3 <= i) && xs[i] > 0.0
  }

  /** A value is in the noise set iff it is positive and sits in a bin outside the peak window. */
  lemma NoiseSetMembers(xs: seq<real>, p: nat, x: real)
    requires p < |xs|
    ensures x in NoiseSet(xs, p)
        <==> (x > 0.0 && exists i :: 0 <= i < |xs| && (i + 2 < p || p + 3 <= i) && xs[i] == x)
  {
    var lo, hi := WindowLo(p), WindowHi(|xs|, p);
    PositivesConcat(xs[..lo], xs[hi..]);
    PositivesMembers(xs[..lo], x);
    PositivesMembers(xs[hi..], x);
    if x in xs[..lo] {
      var i :| 0 <= i < lo && xs[..lo][i] == x;
      assert xs[i] == x;
    }
    if x in xs[hi..] {
      var i :| 0 <= i < |xs| - hi && xs[hi..][i] == x;
      assert xs[hi + i] == x;
    }
    if exists i :: 0 <= i < |xs| && (i + 2 < p || p + 3 <= i) && xs[i] == x {
      var i :| 0 <= i < |xs| && (i + 2 < p || p + 3 <= i) && xs[i] == x;
      if i + 2 < p {
        assert xs[..lo][i] == x;
      } else {
        assert xs[hi..][i - hi] == x;
      }
    }
  }

  /** The noise set is non-empty exactly when some bin outside the peak window is positive. */
  lemma NoiseSetNonEmpty(xs: seq<real>, p: nat)
    requires p < |xs|
    ensures |NoiseSet(xs, p)| > 0 <==> PositiveOutsideWindow(xs, p)
  {
    var noise := NoiseSet(xs, p);
    if |noise| > 0 {
      NoiseSetMembers(xs, p, noise[0]);
    }
    if PositiveOutsideWindow(xs, p) {
      var i :| 0 <= i < |xs| && (i + 2 < p || p + 3 <= i) && xs[i] > 0.0;
      NoiseSetMembers(xs, p, xs[i]);
    }
  }

  /** The guard of the custom path: a finite array of more than 8 bins with some positive bin. */
  predicate SpectrumUsable(ps: Value)
  {
    ps.VList? && AllFinite(ps.items) && |ps.items| > 8 && AnyPositive(Reals(ps.items))
  }

  /** The custom path applies: a usable spectrum whose noise set is non-empty. */
  predicate CustomSnrApplies(ps: Value)
  {
    SpectrumUsable(ps) && PositiveOutsideWindow(Reals(ps.items), ArgMax(Reals(ps.items)))
  }

  /** `ps[peak_i] / np.median(noise)` when the custom path applies. */
  function PeakToNoise(ps: Value): Option<real>
  {
    if !SpectrumUsable(ps) then None
    else
      var xs := Reals(ps.items);
      var noise := NoiseSet(xs, ArgMax(xs));
      if |noise| == 0 then None
      else
        Stats.MedianPositive(noise);
        Some(xs[ArgMax(xs)] / Stats.NumpyMedian(noise))
  }

  /** When some bin is positive, so is the peak bin. */
  lemma PeakPositive(xs: seq<real>)
    requires |xs| > 0 && AnyPositive(xs)
    ensures xs[ArgMax(xs)] > 0.0
  {
    var i :| 0 <= i < |xs| && xs[i] > 0.0;
  }

  /** A positive peak over the median of a non-empty set of positive values is positive. */
  lemma RatioPositive(peak: real, noise: seq<real>)
    requires peak > 0.0 && |noise| > 0 && Stats.AllPositive(noise)
    ensures Stats.NumpyMedian(noise) > 0.0
    ensures peak / Stats.NumpyMedian(noise) > 0.0
  {
    Stats.MedianPositive(noise);
  }

  /**
   * The ratio is defined exactly when the custom path applies, and is then strictly positive:
   * the peak is positive and the median of positive values is positive.
   */
  lemma PeakToNoisePositive(ps: Value)
    ensures PeakToNoise(ps).Some? <==> CustomSnrApplies(ps)
    ensures PeakToNoise(ps).Some? ==> PeakToNoise(ps).value > 0.0
  {
    if SpectrumUsable(ps) {
      var xs := Reals(ps.items);
      var p := ArgMax(xs);
      NoiseSetNonEmpty(xs, p);
      if |NoiseSet(xs, p)| > 0 {
        PeakPositive(xs);
        RatioPositive(xs[p], NoiseSet(xs, p));
      }
    }
  }

  /** `10.0 * math.log10(ps[peak_i] / np.median(noise))`, or None when the custom path does not apply. */
  function ComputedSnr(ps: Value, log10: real -> real): Option<real>
  {
    match PeakToNoise(ps)
    case Some(ratio) => Some(10.0 * log10(ratio))
    case None => None
  }

  /** The SNR the gate sees: the computed one when defined, otherwise the frame's own `snr` field. */
  function Snr(res: Frame, log10: real -> real): Option<real>
  {
    var computed := ComputedSnr(Get(res, POWER_SPECTRUM_KEY), log10);
    if computed.Some? then computed else ExtractV2.ReportedSnr(res)
  }

  /**
   * The SNR is the computed one exactly when the custom path applies, and the frame's own `snr`
   * field otherwise; a non-dict frame has no SNR at all.
   */
  lemma SnrSource(res: Frame, log10: real -> real)
    ensures var ps := Get(res, POWER_SPECTRUM_KEY);
      (CustomSnrApplies(ps) ==> PeakToNoise(ps).Some?
                                && Snr(res, log10) == Some(10.0 * log10(PeakToNoise(ps).value)))
      && (!CustomSnrApplies(ps) ==> Snr(res, log10) == ExtractV2.ReportedSnr(res))
    ensures res.NotDict? ==> Snr(res, log10) == None
  {
    PeakToNoisePositive(Get(res, POWER_SPECTRUM_KEY));
  }

  lemma ComputedFromRatio(ps: Value, log10: real -> real, ratio: Option<real>)
    requires ratio == PeakToNoise(ps)
    ensures ComputedSnr(ps, log10) == if ratio.Some? then Some(10.0 * log10(ratio.value)) else None
  {
  }

  /** `mask = np.ones(n, bool); mask[lo:hi] = False`. */
  method WindowMask(n: nat, lo: nat, hi: nat) returns (mask: array<bool>)
    requires lo <= hi <= n
    ensures fresh(mask) && mask.Length == n
    ensures forall j :: 0 <= j < n ==> mask[j] == !(lo <= j < hi)
  {
    mask := new bool[n](_ => true);
    var k := lo;
    while k < hi
      invariant lo <= k <= hi
      invariant forall j :: 0 <= j < n ==> mask[j] == !(lo <= j < k)
    {
      mask[k] := false;
      k := k + 1;
    }
  }

  /** `ps[mask]` for the window mask: the bins left of the window, then those right of it. */
  method Select(xs: seq<real>, mask: array<bool>, lo: nat, hi: nat) returns (selected: seq<real>)
    requires lo <= hi <= |xs| == mask.Length
    requires forall j :: 0 <= j < |xs| ==> mask[j] == !(lo <= j < hi)
    ensures selected == xs[..lo] + xs[hi..]
  {
    selected := [];
    var j := 0;
    while j < |xs|
      invariant 0 <= j <= |xs|
      invariant selected == xs[..if j < lo then j else lo] + xs[if j < hi then j else hi..j]
    {
      if mask[j] {
        selected := selected + [xs[j]];
      }
      j := j + 1;
    }
  }

  /** `noise[noise > 0]`. */
  method KeepPositive(selected: seq<real>) returns (noise: seq<real>)
    ensures noise == Positives(selected)
  {
    noise := [];
    var j := 0;
    while j < |selected|
      invariant 0 <= j <= |selected|
      invariant noise == Positives(selected[..j])
    {
      assert selected[..j + 1][..j] == selected[..j];
      if selected[j] > 0.0 {
        noise := noise + [selected[j]];
      }
      j := j + 1;
    }
    assert selected[..j] == selected;
  }

  /**
   * The noise set computed as the source does: a mask array of ones, the peak window cleared
   * in place, then boolean selection and the positive filter.
   */
  method MaskedNoise(xs: seq<real>, p: nat) returns (noise: seq<real>)
    requires p < |xs|
    ensures noise == NoiseSet(xs, p)
  {
    var n := |xs|;
    var lo := if p >= 2 then p - 2 else 0;
    var hi := if n < p + 3 then n else p + 3;
    var mask := WindowMask(n, lo, hi);
    var selected := Select(xs, mask, lo, hi);
    noise := KeepPositive(selected);
  }

  /** The SNR step of the frame loop as a method: the computed SNR through the mask array, else the reported one. */
  method EstimateSnr(res: Frame, log10: real -> real) returns (snr: Option<real>)
    ensures snr == Snr(res, log10)
  {
    var ps := Get(res, POWER_SPECTRUM_KEY);
    var ratio: Option<real> := None;
    if SpectrumUsable(ps) {
      var xs := Reals(ps.items);
      var peak := ArgMax(xs);
      var noise := MaskedNoise(xs, peak);
      if |noise| > 0 {
        Stats.MedianPositive(noise);
        ratio := Some(xs[peak] / Stats.NumpyMedian(noise));
      }
    }
    assert ratio == PeakToNoise(ps);
    ComputedFromRatio(ps, log10, ratio);
    snr := if ratio.Some? then Some(10.0 * log10(ratio.value)) else ExtractV2.ReportedSnr(res);
  }
}
