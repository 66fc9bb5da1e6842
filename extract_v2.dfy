/** Numeric extraction of the full logger (a111_breathing_rasp_0902_v2.py): coercion and key resolution. */
module ExtractV2 {
  import opened Wrappers
  import opened Frames

  /** `safe_float`: booleans are refused outright; otherwise `float(x)`, kept only when finite. */
  function SafeFloat(x: Value): (r: Option<real>)
    ensures x.VBool? ==> r == None
    ensures r.Some? <==> x.VNum?
    ensures x.VNum? ==> r == Some(x.x)
  {
    match x
    case VBool(_) => None
    case VNum(v) => Some(v)
    case _ => None
  }

  /**
   * `bpm_from_res`: 60 times the first hertz key (in tuple order) that yields a number; the bpm
   * keys are consulted only when no hertz key does; None for a non-dict or when nothing matches.
   */
  function BpmFromRes(res: Frame): (r: Option<real>)
    ensures res.NotDict? ==> r == None
  {
    RateBpm(res, SafeFloat)
  }

  /** The progress value as coerced, before normalisation. */
  function RawInitProgress(res: Frame): (r: Option<real>)
    ensures res.NotDict? || INIT_PROGRESS_KEY !in res.fields ==> r == None
    ensures res.Dict? && INIT_PROGRESS_KEY in res.fields ==> r == SafeFloat(res.fields[INIT_PROGRESS_KEY])
  {
    SafeFloat(Get(res, INIT_PROGRESS_KEY))
  }

  /**
   * `norm_init_progress`: an absent or unusable value counts as fully warmed up (1.0); a value
   * above 1 is a percentage; anything else is already a fraction. The warm-up check
   * `ip >= 0.99` therefore passes exactly for an absent value, a fraction in [0.99, 1] or a
   * percentage of at least 99.
   */
  function NormInitProgress(res: Frame): (ip: real)
    ensures RawInitProgress(res).None? ==> ip == 1.0
    ensures RawInitProgress(res).Some? && RawInitProgress(res).value <= 100.0 ==> ip <= 1.0
    ensures ip >= 0.99 <==> (RawInitProgress(res).None?
                             || 0.99 <= RawInitProgress(res).value <= 1.0 || RawInitProgress(res).value >= 99.0)
    ensures RawInitProgress(res).Some? && RawInitProgress(res).value > 1.0 ==> 100.0 * ip == RawInitProgress(res).value
    ensures RawInitProgress(res).Some? && RawInitProgress(res).value <= 1.0 ==> ip == RawInitProgress(res).value
  {
    match RawInitProgress(res)
    case None => 1.0
    case Some(v) => if v > 1.0 then v / 100.0 else v
  }

  /** The frame's own `snr` field, `safe_float(isinstance(res, dict) and res.get("snr"))`. */
  function ReportedSnr(res: Frame): (r: Option<real>)
    ensures res.NotDict? ==> r == None
    ensures res.Dict? ==> r == SafeFloat(Get(res, SNR_KEY))
  {
    SafeFloat(AndGet(res, SNR_KEY))
  }

  /** Booleans give no value, a finite number is kept, a non-finite one is refused. */
  lemma SafeFloatExamples()
    ensures SafeFloat(VBool(true)) == None && SafeFloat(VBool(false)) == None
    ensures SafeFloat(VNum(3.25)) == Some(3.25) && SafeFloat(VNonFinite) == None
  {
  }

  /** With a hertz field of 0.25 and a bpm field of 99 the hertz path wins: 15 bpm. */
  lemma HertzBeatsBpm(res: Frame)
    requires res == Dict(map["f_est" := VNum(0.25), "bpm" := VNum(99.0)])
    ensures BpmFromRes(res) == Some(15.0)
  {
    RateBpmResolves(res, SafeFloat);
    assert FirstHit(res, HZ_KEYS, SafeFloat, 0);
  }

  /** A field holding a boolean is ignored: the bpm value is the one the frame gives without it. */
  lemma BooleanFieldIgnored(m: map<string, Value>, k: string, b: bool)
    ensures BpmFromRes(Dict(m[k := VBool(b)])) == BpmFromRes(Dict(m - {k}))
  {
    var r1, r2 := Dict(m[k := VBool(b)]), Dict(m - {k});
    forall key | true ensures SafeFloat(Get(r1, key)) == SafeFloat(Get(r2, key)) {
      if key != k {
        assert Get(r1, key) == Get(r2, key);
      }
    }
    RateBpmAgrees(r1, r2, SafeFloat, SafeFloat);
  }

  /** 50 (a percentage) and 0.5 (a fraction) both give 0.5; no field, or no dict, gives 1.0. */
  lemma InitProgressExamples()
    ensures NormInitProgress(Dict(map[INIT_PROGRESS_KEY := VNum(50.0)])) == 0.5
    ensures NormInitProgress(Dict(map[INIT_PROGRESS_KEY := VNum(0.5)])) == 0.5
    ensures NormInitProgress(Dict(map[])) == 1.0
    ensures NormInitProgress(NotDict) == 1.0
  {
  }
}
