/** Numeric extraction of the earlier logger (a111_breathing_rasp_0902_v1.py). */
module ExtractV1 {
  import opened Wrappers
  import opened Frames

  /**
   * `safe_float`: whatever `float()` accepts and finds finite. Booleans are accepted, since
   * `float(True)` is 1.0 and `float(False)` is 0.0; None, non-numeric and non-finite values are not.
   */
  function SafeFloat(x: Value): (r: Option<real>)
    ensures x.VBool? ==> r == Some(if x.b then 1.0 else 0.0)
    ensures r.Some? <==> x.VBool? || x.VNum?
    ensures x.VNum? ==> r == Some(x.x)
  {
    match x
    case VBool(b) => Some(if b then 1.0 else 0.0)
    case VNum(v) => Some(v)
    case _ => None
  }

  /** `bpm_from_res`: the same priority order as the full logger, with this version's coercion. */
  function BpmFromRes(res: Frame): (r: Option<real>)
    ensures res.NotDict? ==> r == None
  {
    RateBpm(res, SafeFloat)
  }

  /** The progress value as coerced: `safe_float(isinstance(res, dict) and res.get("init_progress"))`. */
  function RawInitProgress(res: Frame): (r: Option<real>)
    ensures res.NotDict? ==> r == Some(0.0)
    ensures res.Dict? ==> r == SafeFloat(Get(res, INIT_PROGRESS_KEY))
  {
    SafeFloat(AndGet(res, INIT_PROGRESS_KEY))
  }

  /**
   * `norm_init_progress`: 1.0 for an absent or unusable value, a percentage above 1 divided by
   * 100, any other value unchanged. A non-dict frame coerces `False` to 0.0, so it never passes
   * the warm-up check.
   */
  function NormInitProgress(res: Frame): (ip: real)
    ensures RawInitProgress(res).None? ==> ip == 1.0
    ensures res.NotDict? ==> ip == 0.0
    ensures ip >= 0.99 <==> (RawInitProgress(res).None?
                             || 0.99 <= RawInitProgress(res).value <= 1.0 || RawInitProgress(res).value >= 99.0)
    ensures RawInitProgress(res).Some? && RawInitProgress(res).value > 1.0 ==> 100.0 * ip == RawInitProgress(res).value
    ensures RawInitProgress(res).Some? && RawInitProgress(res).value <= 1.0 ==> ip == RawInitProgress(res).value
  {
    match RawInitProgress(res)
    case None => 1.0
    case Some(v) => if v > 1.0 then v / 100.0 else v
  }

  /** The frame's `snr` field, `safe_float(isinstance(res, dict) and res.get("snr"))`: 0.0 for a non-dict. */
  function ReportedSnr(res: Frame): (r: Option<real>)
    ensures res.NotDict? ==> r == Some(0.0)
    ensures res.Dict? ==> r == SafeFloat(Get(res, SNR_KEY))
  {
    SafeFloat(AndGet(res, SNR_KEY))
  }

  /** A true flag in the first hertz field reads as 1 Hz, that is 60 bpm, whatever else the frame holds. */
  lemma BooleanHertzCounts(m: map<string, Value>)
    ensures BpmFromRes(Dict(m["f_est" := VBool(true)])) == Some(60.0)
  {
    var res := Dict(m["f_est" := VBool(true)]);
    RateBpmResolves(res, SafeFloat);
    assert FirstHit(res, HZ_KEYS, SafeFloat, 0);
  }
}
