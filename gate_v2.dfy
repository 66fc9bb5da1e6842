/**
 * The validity gate of the full logger (a111_breathing_rasp_0902_v2.py): warm-up, SNR and band
 * checks, the peak prominence test, and the step/ratio test against the last smoothed value.
 */
module GateV2 {
  import opened Wrappers
  import opened Frames
  import Stats
  import opened Smoothing
  import opened Band
  import ExtractV2
  import SnrV2

  /** The command-line options the frame loop reads. */
  datatype Config = Config(
    fLow: real, fHigh: real, snrMin: real, holdLastFor: real,
    smoothWindow: nat, smooth: Smoother, prominenceMin: real,
    maxStepBpm: real, maxRatio: real, debug: bool)

  /** The argparse defaults. */
  const DEFAULTS := Config(0.12, 0.70, 10.0, 5.0, 5, Median, 1.6, 6.0, 1.5, false)

  /** The basic validity under the options `cfg`. */
  predicate BaseValid(ip: real, snr: Option<real>, raw: Option<real>, cfg: Config)
  {
    BasicChecks(ip, snr, raw, cfg.snrMin, cfg.fLow, cfg.fHigh)
  }

  /**
   * The prominence test over the sorted largest values `tops`:
   * `not (tops[-2] > 0 and tops[-1] / tops[-2] < prominence_min)`.
   */
  predicate ProminenceOk(tops: seq<real>, prominenceMin: real)
    requires |tops| >= 2
  {
    !(tops[|tops| - 2] > 0.0 && tops[|tops| - 1] / tops[|tops| - 2] < prominenceMin)
  }

  /** The finite bins of a spectrum, in order. */
  function FiniteValues(bins: seq<Sample>): (f: seq<real>)
    ensures |f| <= |bins|
  {
    if bins == [] then []
    else FiniteValues(bins[..|bins| - 1]) + (if bins[|bins| - 1].Finite? then [bins[|bins| - 1].x] else [])
  }

  lemma {:induction false} FiniteValuesOfFinite(bins: seq<Sample>)
    requires SnrV2.AllFinite(bins)
    ensures FiniteValues(bins) == SnrV2.Reals(bins)
  {
    if bins != [] {
      var n := |bins| - 1;
      assert SnrV2.AllFinite(bins[..n]);
      FiniteValuesOfFinite(bins[..n]);
    }
  }

  /**
   * What the `try` block around the prominence test decides for the spectrum value `ps`.
   * A value that is not a one-dimensional array, or one of fewer than 3 bins, makes
   * `np.argpartition(ps, -3)` raise, and the `except` lets the frame pass. With a NaN or a
   * +inf bin the ratio is NaN or inf and the test passes. -inf bins sort below every finite
   * bin, so with fewer than two finite bins the second-largest value is -inf and the test
   * passes; otherwise the two largest values are the two largest finite bins.
   */
  predicate ProminencePasses(ps: Value, prominenceMin: real)
  {
    match ps
    case VList(bins) =>
      |bins| < 3
      || (exists i :: 0 <= i < |bins| && (bins[i].NaN? || bins[i].PosInf?))
      || |FiniteValues(bins)| < 2
      || ProminenceOk(Stats.Largest(FiniteValues(bins), if |FiniteValues(bins)| < 3 then |FiniteValues(bins)| else 3), prominenceMin)
    case _ => true
  }

  /** `max(1e-6, last_good_bpm)`. */
  function Denominator(lastGood: real): (d: real)
    ensures d > 0.0 && d >= lastGood
  {
    if lastGood > 0.000001 then lastGood else 0.000001
  }

  function Abs(x: real): real
  {
    if x < 0.0 then -x else x
  }

  /**
   * The step/ratio test against the previous smoothed value. Python's `or` stops at the first
   * true operand, so `1/max_ratio` is only evaluated, and only raises for a zero `max_ratio`,
   * when the step and upper-ratio tests have both passed.
   */
  function StepCheck(raw: real, lastGood: real, cfg: Config): Result<bool, PyError>
  {
    var r := raw / Denominator(lastGood);
    if Abs(raw - lastGood) > cfg.maxStepBpm || r > cfg.maxRatio then Ok(false)
    else if cfg.maxRatio == 0.0 then Err(ZeroDivisionError)
    else Ok(!(r < 1.0 / cfg.maxRatio))
  }

  /**
   * The frame's verdict: Ok(valid) or the exception the gate raises. The prominence test runs
   * only when `npInGlobals` holds, the value of `'np' in globals()`.
   */
  function Verdict(ip: real, snr: Option<real>, raw: Option<real>, ps: Value, lastGood: Option<real>,
                   cfg: Config, npInGlobals: bool): Result<bool, PyError>
  {
    var base := BaseValid(ip, snr, raw, cfg);
    var prominent := if base && !ps.VNone? && npInGlobals then ProminencePasses(ps, cfg.prominenceMin) else base;
    if prominent && lastGood.Some? then StepCheck(raw.value, lastGood.value, cfg) else Ok(prominent)
  }

  /** The raw value is within the permitted step of `lastGood` and its ratio within the permitted factor. */
  predicate PlausibleStep(raw: real, lastGood: real, cfg: Config)
  {
    var r := raw / Denominator(lastGood);
    cfg.maxRatio != 0.0 && Abs(raw - lastGood) <= cfg.maxStepBpm
    && 1.0 / cfg.maxRatio <= r <= cfg.maxRatio
  }

  /**
   * A frame is accepted exactly when every check passes: warm-up, SNR, band, the prominence
   * test when it is reached, and, once a smoothed value exists, the step and ratio tests.
   */
  lemma AcceptedIffAllChecksPass(ip: real, snr: Option<real>, raw: Option<real>, ps: Value,
                                 lastGood: Option<real>, cfg: Config, npInGlobals: bool)
    ensures Verdict(ip, snr, raw, ps, lastGood, cfg, npInGlobals) == Ok(true)
        <==> (ip >= 0.99 && (snr.None? || snr.value >= cfg.snrMin)
              && raw.Some? && 60.0 * cfg.fLow <= raw.value <= 60.0 * cfg.fHigh
              && (npInGlobals && !ps.VNone? ==> ProminencePasses(ps, cfg.prominenceMin))
              && (lastGood.Some? ==> PlausibleStep(raw.value, lastGood.value, cfg)))
  {
  }

  /** The very first accepted value is never step-rejected: with no smoothed value the step test is skipped. */
  lemma FirstValueNeverStepRejected(ip: real, snr: Option<real>, raw: Option<real>, ps: Value,
                                    cfg: Config, npInGlobals: bool)
    ensures Verdict(ip, snr, raw, ps, None, cfg, npInGlobals)
         == Ok(BaseValid(ip, snr, raw, cfg) && (npInGlobals && !ps.VNone? ==> ProminencePasses(ps, cfg.prominenceMin)))
  {
  }

  /**
   * The gate raises only for a zero `max_ratio`, once a smoothed value exists, on a frame that
   * passed every other check and whose ratio is not positive.
   */
  lemma VerdictRaisesOnlyOnZeroRatio(ip: real, snr: Option<real>, raw: Option<real>, ps: Value,
                                     lastGood: Option<real>, cfg: Config, npInGlobals: bool)
    ensures Verdict(ip, snr, raw, ps, lastGood, cfg, npInGlobals).Err?
        <==> (cfg.maxRatio == 0.0 && lastGood.Some? && BaseValid(ip, snr, raw, cfg)
              && (npInGlobals && !ps.VNone? ==> ProminencePasses(ps, cfg.prominenceMin))
              && Abs(raw.value - lastGood.value) <= cfg.maxStepBpm
              && raw.value / Denominator(lastGood.value) <= 0.0)
    ensures Verdict(ip, snr, raw, ps, lastGood, cfg, npInGlobals).Err?
        ==> Verdict(ip, snr, raw, ps, lastGood, cfg, npInGlobals).error == ZeroDivisionError
  {
  }

  /**
   * On an all-finite spectrum of at least three bins the test compares the largest bin with the
   * second largest (counting repeats): `tops` holds the three largest bins, ascending, and no
   * other bin exceeds the smallest of them.
   */
  lemma ProminenceOnFiniteSpectrum(bins: seq<Sample>, prominenceMin: real)
    requires SnrV2.AllFinite(bins) && |bins| >= 3
    ensures var xs := SnrV2.Reals(bins);
      var tops := Stats.Largest(xs, 3);
      && Stats.IsSorted(tops)
      && multiset(tops) <= multiset(xs)
      && (forall x :: x in multiset(xs) - multiset(tops) ==> x <= tops[0])
      && (ProminencePasses(VList(bins), prominenceMin)
          <==> !(tops[1] > 0.0 && tops[2] / tops[1] < prominenceMin))
  {
    var xs := SnrV2.Reals(bins);
    FiniteValuesOfFinite(bins);
    Stats.LargestAreLargest(xs, 3);
  }

  /** Band example: 0.12-0.70 Hz is 7.2-42 bpm; 15 bpm with SNR 12 and full progress passes, 100 bpm does not. */
  lemma BandExample()
    ensures var cfg := DEFAULTS;
      BaseValid(1.0, Some(12.0), Some(15.0), cfg) && !BaseValid(1.0, Some(12.0), Some(100.0), cfg)
  {
  }

  /**
   * Step example, last smoothed value 15, step 6, ratio 1.5: 25 is rejected (step 10),
   * 20 accepted (step 5, ratio 1.33), 23 rejected (step 8).
   */
  lemma StepExample()
    ensures StepCheck(25.0, 15.0, DEFAULTS) == Ok(false)
    ensures StepCheck(20.0, 15.0, DEFAULTS) == Ok(true)
    ensures StepCheck(23.0, 15.0, DEFAULTS) == Ok(false)
  {
  }

  /** A spectrum whose two largest bins are equal: prominence ratio 1, below the default 1.6. */
  const FLAT_PEAKS := VList([Finite(1.0), Finite(4.0), Finite(4.0)])

  /**
   * As written, `'np' in globals()` is false (numpy is imported inside `main`), so the
   * prominence test never runs: the verdict ignores the spectrum, and a frame with two equal
   * peaks is accepted.
   */
  lemma ProminenceGateInactiveAsWritten(ip: real, snr: Option<real>, raw: Option<real>, ps: Value,
                                        lastGood: Option<real>, cfg: Config)
    ensures Verdict(ip, snr, raw, ps, lastGood, cfg, false) == Verdict(ip, snr, raw, VNone, lastGood, cfg, false)
    ensures Verdict(1.0, None, Some(15.0), FLAT_PEAKS, None, DEFAULTS, false) == Ok(true)
  {
  }

  /**
   * With the test reachable, as intended, a frame is accepted only if its largest bin is at
   * least `prominence_min` times the second largest, when that is positive.
   */
  lemma ProminenceGateEnforced(ip: real, snr: Option<real>, raw: Option<real>, bins: seq<Sample>,
                               lastGood: Option<real>, cfg: Config)
    requires SnrV2.AllFinite(bins) && |bins| >= 3
    requires Verdict(ip, snr, raw, VList(bins), lastGood, cfg, true) == Ok(true)
    ensures var tops := Stats.Largest(SnrV2.Reals(bins), 3);
      tops[1] > 0.0 ==> tops[2] / tops[1] >= cfg.prominenceMin
  {
    ProminenceOnFiniteSpectrum(bins, cfg.prominenceMin);
  }

  /** An all-finite spectrum whose two largest bins are equal and positive fails any threshold above 1. */
  lemma EqualTopPeaksFail(bins: seq<Sample>, prominenceMin: real)
    requires SnrV2.AllFinite(bins) && |bins| >= 3 && prominenceMin > 1.0
    requires var tops := Stats.Largest(SnrV2.Reals(bins), 3);
      tops[1] == tops[2] > 0.0
    ensures !ProminencePasses(VList(bins), prominenceMin)
  {
    ProminenceOnFiniteSpectrum(bins, prominenceMin);
    EqualRatioBelow(Stats.Largest(SnrV2.Reals(bins), 3)[2], prominenceMin);
  }

  /** A positive value over itself is 1, below any threshold above 1. */
  lemma EqualRatioBelow(a: real, prominenceMin: real)
    requires a > 0.0 && prominenceMin > 1.0
    ensures a / a < prominenceMin
  {
    assert a / a == 1.0;
  }

  /** With the test reachable, the frame with two equal peaks is rejected. */
  lemma FlatPeaksRejectedWhenEnforced()
    ensures Verdict(1.0, None, Some(15.0), FLAT_PEAKS, None, DEFAULTS, true) == Ok(false)
  {
    var flat := FLAT_PEAKS.items;
    assert SnrV2.AllFinite(flat);
    assert SnrV2.Reals(flat) == [1.0, 4.0, 4.0];
    Stats.SortOfSorted([1.0, 4.0, 4.0]);
    EqualTopPeaksFail(flat, 1.6);
  }
}
