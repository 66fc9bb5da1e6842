/**
 * How the two versions of the logger differ on the same frame: the coercion of booleans, the
 * warm-up reading of a non-dict frame, and the bpm value they extract.
 */
module Versions {
  import opened Wrappers
  import opened Frames
  import ExtractV1
  import ExtractV2
  import PipelineV1

  /** The two `safe_float`s disagree exactly on booleans. */
  lemma SafeFloatDiffersOnlyOnBooleans(x: Value)
    ensures ExtractV1.SafeFloat(x) != ExtractV2.SafeFloat(x) <==> x.VBool?
  {
    if x.VBool? {
      assert ExtractV1.SafeFloat(x).Some? && ExtractV2.SafeFloat(x).None?;
    }
  }

  /** No field the extraction reads holds a boolean. */
  predicate NoBooleanRateFields(res: Frame)
  {
    && (forall i :: 0 <= i < |HZ_KEYS| ==> !Get(res, HZ_KEYS[i]).VBool?)
    && (forall i :: 0 <= i < |BPM_KEYS| ==> !Get(res, BPM_KEYS[i]).VBool?)
  }

  /** Without booleans in the rate fields, both versions extract the same bpm value. */
  lemma BpmAgreesWithoutBooleans(res: Frame)
    requires NoBooleanRateFields(res)
    ensures ExtractV1.BpmFromRes(res) == ExtractV2.BpmFromRes(res)
  {
    forall i | 0 <= i < |HZ_KEYS|
      ensures ExtractV1.SafeFloat(Get(res, HZ_KEYS[i])) == ExtractV2.SafeFloat(Get(res, HZ_KEYS[i]))
    {
      SafeFloatDiffersOnlyOnBooleans(Get(res, HZ_KEYS[i]));
    }
    forall i | 0 <= i < |BPM_KEYS|
      ensures ExtractV1.SafeFloat(Get(res, BPM_KEYS[i])) == ExtractV2.SafeFloat(Get(res, BPM_KEYS[i]))
    {
      SafeFloatDiffersOnlyOnBooleans(Get(res, BPM_KEYS[i]));
    }
    if res.Dict? {
      RateBpmAgrees(res, res, ExtractV1.SafeFloat, ExtractV2.SafeFloat);
    }
  }

  /**
   * A true flag in the first hertz field: 60 bpm for the earlier version; the later one reads
   * the frame as if the field were missing.
   */
  lemma BooleanHertzSplitsVersions(m: map<string, Value>)
    ensures ExtractV1.BpmFromRes(Dict(m["f_est" := VBool(true)])) == Some(60.0)
    ensures ExtractV2.BpmFromRes(Dict(m["f_est" := VBool(true)])) == ExtractV2.BpmFromRes(Dict(m - {"f_est"}))
  {
    ExtractV1.BooleanHertzCounts(m);
    ExtractV2.BooleanFieldIgnored(m, "f_est", true);
  }

  /**
   * A non-dict frame: the earlier version reads progress and SNR as 0.0 (from `False`), so its
   * warm-up check fails and its notes read `snr=0.00/init=0.00`; the later one reads progress
   * as 1.0 and no SNR. Neither extracts a bpm value.
   */
  lemma NonDictFrame()
    ensures ExtractV1.NormInitProgress(NotDict) == 0.0 && ExtractV2.NormInitProgress(NotDict) == 1.0
    ensures ExtractV1.ReportedSnr(NotDict) == Some(0.0) && ExtractV2.ReportedSnr(NotDict) == None
    ensures ExtractV1.BpmFromRes(NotDict) == None && ExtractV2.BpmFromRes(NotDict) == None
    ensures PipelineV1.Observe(NotDict) == PipelineV1.Observation(Some(0.0), 0.0, None)
  {
  }
}
