/**
 * The breathing band and the three basic checks, which both logger versions share: the
 * band is given in hertz by `--f-low`/`--f-high` and compared in breaths per minute.
 */
module Band {
  import opened Wrappers
  import opened Output

  /** A frequency in hertz as breaths per minute, as in `60.0*args.f_low`. */
  function Bpm(hz: real): real
  {
    60.0 * hz
  }

  /** `raw_bpm is not None and 60*f_low <= raw_bpm <= 60*f_high`. */
  predicate InBand(raw: Option<real>, fLow: real, fHigh: real)
  {
    raw.Some? && Bpm(fLow) <= raw.value <= Bpm(fHigh)
  }

  /**
   * The checks both versions make: warm-up done, SNR unknown or high enough, raw bpm present
   * and in band.
   */
  predicate BasicChecks(ip: real, snr: Option<real>, raw: Option<real>, snrMin: real, fLow: real, fHigh: real)
  {
    ip >= 0.99 && (snr.None? || snr.value >= snrMin) && InBand(raw, fLow, fHigh)
  }

  /** Every record that shows a value shows one inside the band. */
  predicate ShowsInBand(records: seq<Record>, fLow: real, fHigh: real)
  {
    forall i :: 0 <= i < |records| && records[i].bpm.Some? ==>
      Bpm(fLow) <= records[i].bpm.value <= Bpm(fHigh)
  }

  /** A catch-up pass showing an in-band value, or none, shows only in-band values. */
  lemma CatchUpShowsInBand(next: int, now: real, bpm: Option<real>, notes: seq<Note>, fLow: real, fHigh: real)
    requires bpm.Some? ==> Bpm(fLow) <= bpm.value <= Bpm(fHigh)
    ensures ShowsInBand(CatchUp(next, now, bpm, notes), fLow, fHigh)
  {
  }

  /** Records of consecutive seconds from `start`, followed by records of consecutive seconds from where they end. */
  lemma ConsecutiveAppend(records: seq<Record>, rs: seq<Record>, start: int, fLow: real, fHigh: real)
    requires forall i :: 0 <= i < |records| ==> records[i].unixS == start + i
    requires forall i :: 0 <= i < |rs| ==> rs[i].unixS == start + |records| + i
    requires ShowsInBand(records, fLow, fHigh) && ShowsInBand(rs, fLow, fHigh)
    ensures forall i :: 0 <= i < |records + rs| ==> (records + rs)[i].unixS == start + i
    ensures ShowsInBand(records + rs, fLow, fHigh)
  {
  }
}
