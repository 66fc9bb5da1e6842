/**
 * One pass of the frame loop of the full logger (a111_breathing_rasp_0902_v2.py): extract the
 * estimates, judge the frame, update the smoothing buffer on acceptance, and emit one record
 * for every whole second the clock has passed since the last pass.
 */
module PipelineV2 {
  import opened Wrappers
  import opened Frames
  import Stats
  import opened Smoothing
  import opened Output
  import ExtractV2
  import SnrV2
  import opened GateV2
  import opened Band

  const F_EST_KEY := "f_est"
  const F_DFT_KEY := "f_dft_est"

  /** A debug estimate in bpm: `safe_float(isinstance(res, dict) and res.get(key))`, times 60. */
  function DebugBpm(res: Frame, key: string): (r: Option<real>)
    ensures r.Some? <==> ExtractV2.SafeFloat(AndGet(res, key)).Some?
    ensures r.Some? ==> r.value == 60.0 * ExtractV2.SafeFloat(AndGet(res, key)).value
  {
    match ExtractV2.SafeFloat(AndGet(res, key))
    case Some(f) => Some(60.0 * f)
    case None => None
  }

  /**
   * The note tokens of one pass: `held=1`, `snr=`, `init=`, `raw=` for an in-band raw value
   * the gate rejected, and with `--debug` the two frequency estimates (see `DebugBpm`).
   */
  function NotesV2(held: bool, snr: Option<real>, ip: real, raw: Option<real>, valid: bool,
                   cfg: Config, fEst: Option<real>, fDft: Option<real>): seq<Note>
  {
    var shownRaw := if !valid && InBand(raw, cfg.fLow, cfg.fHigh) then raw else None;
    Present(Slots(held, snr, ip, shownRaw, if cfg.debug then fEst else None, if cfg.debug then fDft else None))
  }

  /** The leading tokens of a pass: in the fixed order, `held=1` when held, `snr=` when known, `init=` always. */
  lemma NotesV2Leading(held: bool, snr: Option<real>, ip: real, raw: Option<real>, valid: bool,
                       cfg: Config, fEst: Option<real>, fDft: Option<real>)
    ensures var notes := NotesV2(held, snr, ip, raw, valid, cfg, fEst, fDft);
      && InNoteOrder(notes)
      && (Held in notes <==> held)
      && (forall v :: SnrNote(v) in notes <==> snr == Some(v))
      && (forall v :: InitNote(v) in notes <==> v == ip)
  {
    var shownRaw := if !valid && InBand(raw, cfg.fLow, cfg.fHigh) then raw else None;
    var shownFEst := if cfg.debug then fEst else None;
    var shownFDft := if cfg.debug then fDft else None;
    assert Present(Slots(held, snr, ip, shownRaw, shownFEst, shownFDft)) == NotesV2(held, snr, ip, raw, valid, cfg, fEst, fDft);
    SlotsRanked(held, snr, ip, shownRaw, shownFEst, shownFDft);
    SlotNotesLeading(held, snr, ip, shownRaw, shownFEst, shownFDft);
  }

  /** The trailing tokens of a pass: `raw=` for an in-band rejected raw value, the estimates with `--debug`. */
  lemma NotesV2Trailing(held: bool, snr: Option<real>, ip: real, raw: Option<real>, valid: bool,
                        cfg: Config, fEst: Option<real>, fDft: Option<real>)
    ensures var notes := NotesV2(held, snr, ip, raw, valid, cfg, fEst, fDft);
      && (forall v :: RawNote(v) in notes <==> raw == Some(v) && !valid && InBand(raw, cfg.fLow, cfg.fHigh))
      && (forall v :: FEstNote(v) in notes <==> cfg.debug && fEst == Some(v))
      && (forall v :: FDftNote(v) in notes <==> cfg.debug && fDft == Some(v))
  {
    var shownRaw := if !valid && InBand(raw, cfg.fLow, cfg.fHigh) then raw else None;
    var shownFEst := if cfg.debug then fEst else None;
    var shownFDft := if cfg.debug then fDft else None;
    var notes := Present(Slots(held, snr, ip, shownRaw, shownFEst, shownFDft));
    assert notes == NotesV2(held, snr, ip, raw, valid, cfg, fEst, fDft);
    SlotNotesTrailing(held, snr, ip, shownRaw, shownFEst, shownFDft);
    assert forall v :: RawNote(v) in notes <==> shownRaw == Some(v);
    assert forall v :: FEstNote(v) in notes <==> shownFEst == Some(v);
    assert forall v :: FDftNote(v) in notes <==> shownFDft == Some(v);
  }

  /**
   * The tokens come in the fixed order, each at most once: `held=1` exactly when the held value
   * is shown, `snr=` when an SNR is known, `init=` always (the normalised progress is never
   * None), `raw=` exactly for an in-band raw value the gate rejected, and the debug estimates
   * exactly when `--debug` is given and they exist.
   */
  lemma NotesV2Tokens(held: bool, snr: Option<real>, ip: real, raw: Option<real>, valid: bool,
                      cfg: Config, fEst: Option<real>, fDft: Option<real>)
    ensures var notes := NotesV2(held, snr, ip, raw, valid, cfg, fEst, fDft);
      && InNoteOrder(notes)
      && (Held in notes <==> held)
      && (forall v :: SnrNote(v) in notes <==> snr == Some(v))
      && (forall v :: InitNote(v) in notes <==> v == ip)
      && (forall v :: RawNote(v) in notes <==> raw == Some(v) && !valid && InBand(raw, cfg.fLow, cfg.fHigh))
      && (forall v :: FEstNote(v) in notes <==> cfg.debug && fEst == Some(v))
      && (forall v :: FDftNote(v) in notes <==> cfg.debug && fDft == Some(v))
  {
    NotesV2Leading(held, snr, ip, raw, valid, cfg, fEst, fDft);
    NotesV2Trailing(held, snr, ip, raw, valid, cfg, fEst, fDft);
  }

  /**
   * Pushing an in-band value onto a buffer of in-band values gives a buffer that fits `maxlen`
   * and holds in-band values, and whose smoothing raises exactly when `maxlen` is 0.
   */
  lemma PushSmoothed(buf: seq<real>, raw: real, w: nat, how: Smoother, lo: real, hi: real)
    requires |buf| <= w && Stats.Bounded(buf, lo, hi) && lo <= raw <= hi
    ensures var q := DequePush(buf, raw, w);
      && |q| <= w && Stats.Bounded(q, lo, hi) && (q == [] <==> w == 0)
      && (Smooth(q, how).Err? <==> w == 0)
      && (w == 0 ==> Smooth(q, how) == Err(if how == Median then IndexError else ZeroDivisionError))
  {
    PushBounded(buf, raw, w, lo, hi);
  }

  /** What one frame yields before the gate: progress, SNR, raw bpm, spectrum and debug estimates. */
  datatype Observation = Observation(ip: real, snr: Option<real>, raw: Option<real>, ps: Value,
                                     fEst: Option<real>, fDft: Option<real>)

  /** The estimates of frame `res`, as the loop body computes them. */
  function Observe(res: Frame, log10: real -> real): Observation
  {
    Observation(ExtractV2.NormInitProgress(res), SnrV2.Snr(res, log10), ExtractV2.BpmFromRes(res),
                Get(res, POWER_SPECTRUM_KEY), DebugBpm(res, F_EST_KEY), DebugBpm(res, F_DFT_KEY))
  }

  /** The estimates of frame `res`, with the SNR computed by masking the spectrum. */
  method Measure(res: Frame, log10: real -> real) returns (o: Observation)
    ensures o == Observe(res, log10)
  {
    var snr := SnrV2.EstimateSnr(res, log10);
    o := Observation(ExtractV2.NormInitProgress(res), snr, ExtractV2.BpmFromRes(res),
                     Get(res, POWER_SPECTRUM_KEY), DebugBpm(res, F_EST_KEY), DebugBpm(res, F_DFT_KEY));
  }

  /** The gate's verdict on an observation, given the smoothed value before the frame. */
  function VerdictOn(o: Observation, lastGood: Option<real>, cfg: Config, npInGlobals: bool): Result<bool, PyError>
  {
    Verdict(o.ip, o.snr, o.raw, o.ps, lastGood, cfg, npInGlobals)
  }

  /**
   * The loop state between passes: the deque fits its `maxlen` and holds accepted, hence
   * in-band, values; a smoothed value exists exactly when the deque is non-empty, and it is the
   * deque's smoothed value.
   */
  predicate ValidState(s: LoopState, cfg: Config)
  {
    |s.buf| <= cfg.smoothWindow
    && Stats.Bounded(s.buf, Bpm(cfg.fLow), Bpm(cfg.fHigh))
    && (s.lastGood.None? <==> s.buf == [])
    && (s.lastGood.Some? ==> Smooth(s.buf, cfg.smooth) == Ok(s.lastGood.value))
  }

  /**
   * `q.append(raw_bpm)`, then `last_good_bpm = smooth_value(q)`, which raises on the empty
   * deque a `maxlen` of 0 leaves, and `last_good_t = now`.
   */
  function Accepted(s: LoopState, raw: real, now: real, cfg: Config): Result<LoopState, PyError>
  {
    var q := DequePush(s.buf, raw, cfg.smoothWindow);
    match Smooth(q, cfg.smooth)
    case Err(e) => Err(e)
    case Ok(m) => Ok(LoopState(q, Some(m), now, s.nextTick))
  }

  /** Accepting an in-band value, when smoothing does not raise, keeps the state valid. */
  lemma AcceptedKeepsValid(s: LoopState, raw: real, now: real, cfg: Config)
    requires ValidState(s, cfg) && Bpm(cfg.fLow) <= raw <= Bpm(cfg.fHigh)
    ensures Accepted(s, raw, now, cfg).Ok? ==> ValidState(Accepted(s, raw, now, cfg).value, cfg)
  {
    PushSmoothed(s.buf, raw, cfg.smoothWindow, cfg.smooth, Bpm(cfg.fLow), Bpm(cfg.fHigh));
  }

  /**
   * The gate and, for an accepted frame, the smoothing update: the verdict and the state they
   * leave, or the exception the gate or the smoothing raises.
   */
  function Admitted(s: LoopState, o: Observation, now: real, cfg: Config, npInGlobals: bool)
    : Result<(bool, LoopState), PyError>
  {
    match VerdictOn(o, s.lastGood, cfg, npInGlobals)
    case Err(e) => Err(e)
    case Ok(valid) =>
      // An accepted frame has a raw value (`AcceptedIffAllChecksPass`).
      match if valid && o.raw.Some? then Accepted(s, o.raw.value, now, cfg) else Ok(s)
      case Err(e) => Err(e)
      case Ok(s1) => Ok((valid, s1))
  }

  /**
   * One pass of the loop body on observation `o` at clock time `now`: the state it leaves and
   * the records it prints, or the exception it raises. The gate may raise; an accepted frame is
   * pushed and the deque re-smoothed, which may raise; then the catch-up loop prints one record
   * per second from the cursor to `floor(now)`, showing the held value and the notes of this
   * frame.
   */
  function Pass(s: LoopState, o: Observation, now: real, cfg: Config, npInGlobals: bool)
    : Result<(LoopState, seq<Record>), PyError>
  {
    match Admitted(s, o, now, cfg, npInGlobals)
    case Err(e) => Err(e)
    case Ok((valid, s1)) =>
      var shown := Shown(s1.lastGood, s1.lastGoodT, now, cfg.holdLastFor);
      var notes := NotesV2(shown.Some?, o.snr, o.ip, o.raw, valid, cfg, o.fEst, o.fDft);
      Ok((s1.(nextTick := s.nextTick + TickCount(s.nextTick, now)), CatchUp(s.nextTick, now, shown, notes)))
  }

  /**
   * A pass whose gate and smoothing update do not raise, giving the verdict `valid` and the
   * state `s1`, prints the catch-up records of this frame's held value and notes from `s1`.
   */
  lemma PassProceeds(s: LoopState, o: Observation, now: real, cfg: Config, npInGlobals: bool, valid: bool, s1: LoopState)
    requires Admitted(s, o, now, cfg, npInGlobals) == Ok((valid, s1))
    ensures var shown := Shown(s1.lastGood, s1.lastGoodT, now, cfg.holdLastFor);
      Pass(s, o, now, cfg, npInGlobals)
        == Ok((s1.(nextTick := s.nextTick + TickCount(s.nextTick, now)),
               CatchUp(s.nextTick, now, shown, NotesV2(shown.Some?, o.snr, o.ip, o.raw, valid, cfg, o.fEst, o.fDft))))
  {
  }

  /**
   * A pass raises exactly when the gate raises (ZeroDivisionError, from a zero `max_ratio`),
   * or when it accepts the frame with `maxlen` 0 (IndexError for the median, ZeroDivisionError
   * for the mean); so it can only raise when `max_ratio` or `maxlen` is 0.
   */
  lemma PassRaises(s: LoopState, o: Observation, now: real, cfg: Config, npInGlobals: bool)
    ensures var v := VerdictOn(o, s.lastGood, cfg, npInGlobals);
      var r := Pass(s, o, now, cfg, npInGlobals);
      && (r.Err? <==> v.Err? || (v == Ok(true) && cfg.smoothWindow == 0))
      && (v.Err? ==> r == Err(ZeroDivisionError))
      && (v == Ok(true) && cfg.smoothWindow == 0 ==>
            r == Err(if cfg.smooth == Median then IndexError else ZeroDivisionError))
      && (r.Err? ==> cfg.maxRatio == 0.0 || cfg.smoothWindow == 0)
  {
    VerdictRaisesOnlyOnZeroRatio(o.ip, o.snr, o.raw, o.ps, s.lastGood, cfg, npInGlobals);
  }

  /**
   * A rejected frame leaves the deque, the smoothed value and its time as they were; an
   * accepted one (with a positive `maxlen`) appends its in-band raw value to the deque, evicting
   * the oldest when full, and makes the new deque's smoothed value, stamped `now`, current.
   */
  lemma PassSmooths(s: LoopState, o: Observation, now: real, cfg: Config, npInGlobals: bool)
    requires ValidState(s, cfg)
    ensures var v := VerdictOn(o, s.lastGood, cfg, npInGlobals);
      var r := Pass(s, o, now, cfg, npInGlobals);
      && (v == Ok(false) ==>
            r.Ok? && r.value.0.buf == s.buf && r.value.0.lastGood == s.lastGood
            && r.value.0.lastGoodT == s.lastGoodT)
      && (v == Ok(true) && cfg.smoothWindow > 0 ==>
            && r.Ok? && InBand(o.raw, cfg.fLow, cfg.fHigh)
            && r.value.0.buf == DequePush(s.buf, o.raw.value, cfg.smoothWindow)
            && r.value.0.buf[|r.value.0.buf| - 1] == o.raw.value
            && r.value.0.lastGood.Some?
            && Smooth(r.value.0.buf, cfg.smooth) == Ok(r.value.0.lastGood.value)
            && r.value.0.lastGoodT == now)
  {
    if VerdictOn(o, s.lastGood, cfg, npInGlobals) == Ok(true) && cfg.smoothWindow > 0 {
      AcceptedIffAllChecksPass(o.ip, o.snr, o.raw, o.ps, s.lastGood, cfg, npInGlobals);
      PushSmoothed(s.buf, o.raw.value, cfg.smoothWindow, cfg.smooth, Bpm(cfg.fLow), Bpm(cfg.fHigh));
    }
  }

  /** A pass from a valid state that does not raise leaves a valid state. */
  lemma PassKeepsValid(s: LoopState, o: Observation, now: real, cfg: Config, npInGlobals: bool)
    requires ValidState(s, cfg)
    ensures Pass(s, o, now, cfg, npInGlobals).Ok? ==> ValidState(Pass(s, o, now, cfg, npInGlobals).value.0, cfg)
  {
    if VerdictOn(o, s.lastGood, cfg, npInGlobals) == Ok(true) {
      AcceptedIffAllChecksPass(o.ip, o.snr, o.raw, o.ps, s.lastGood, cfg, npInGlobals);
      PushSmoothed(s.buf, o.raw.value, cfg.smoothWindow, cfg.smooth, Bpm(cfg.fLow), Bpm(cfg.fHigh));
    }
  }

  /**
   * What a pass from a valid state prints, and where it leaves the cursor: records of the
   * consecutive seconds from the cursor with no gap, showing only values in the band, with the
   * cursor moved on by their number and past `now`.
   */
  predicate PrintsInOrder(s: LoopState, now: real, r: (LoopState, seq<Record>), cfg: Config)
  {
    && r.0.nextTick == s.nextTick + |r.1| && r.0.nextTick as real > now
    && (forall i :: 0 <= i < |r.1| ==> r.1[i].unixS == s.nextTick + i)
    && ShowsInBand(r.1, cfg.fLow, cfg.fHigh)
  }

  /** A pass from a valid state that does not raise prints in order. */
  lemma PassRecords(s: LoopState, o: Observation, now: real, cfg: Config, npInGlobals: bool)
    requires ValidState(s, cfg)
    ensures Pass(s, o, now, cfg, npInGlobals).Ok? ==> PrintsInOrder(s, now, Pass(s, o, now, cfg, npInGlobals).value, cfg)
  {
    var r := Pass(s, o, now, cfg, npInGlobals);
    if r.Ok? {
      PassKeepsValid(s, o, now, cfg, npInGlobals);
      var s1 := r.value.0;
      if s1.lastGood.Some? {
        SmoothBounded(s1.buf, cfg.smooth, Bpm(cfg.fLow), Bpm(cfg.fHigh));
      }
      var shown := Shown(s1.lastGood, s1.lastGoodT, now, cfg.holdLastFor);
      var notes := NotesV2(shown.Some?, o.snr, o.ip, o.raw, VerdictOn(o, s.lastGood, cfg, npInGlobals).value,
                           cfg, o.fEst, o.fDft);
      CatchUpCoversElapsedSeconds(s.nextTick, now, shown, notes);
      CatchUpShowsInBand(s.nextTick, now, shown, notes, cfg.fLow, cfg.fHigh);
    }
  }

  /** A pass as a function of the state, the observation and the clock time. */
  type PassFn = (LoopState, Observation, real) -> Result<(LoopState, seq<Record>), PyError>

  /** The pass of this logger under the options `cfg`. */
  function PassOf(cfg: Config, npInGlobals: bool): PassFn
  {
    (s, o, now) => Pass(s, o, now, cfg, npInGlobals)
  }

  /** A pass function that, from a valid state, leaves a valid state and prints in order. */
  ghost predicate KeepsOrder(pass: PassFn, cfg: Config)
  {
    forall s, o, now {:trigger pass(s, o, now)} :: ValidState(s, cfg) && pass(s, o, now).Ok? ==>
      ValidState(pass(s, o, now).value.0, cfg) && PrintsInOrder(s, now, pass(s, o, now).value, cfg)
  }

  /** One pass of a pass function that keeps order, from a valid state. */
  lemma KeepsOrderAt(pass: PassFn, cfg: Config, s: LoopState, o: Observation, now: real)
    requires KeepsOrder(pass, cfg) && ValidState(s, cfg) && pass(s, o, now).Ok?
    ensures ValidState(pass(s, o, now).value.0, cfg) && PrintsInOrder(s, now, pass(s, o, now).value, cfg)
  {
  }

  /** This logger's pass keeps the state valid and prints in order. */
  lemma PassKeepsOrder(cfg: Config, npInGlobals: bool)
    ensures KeepsOrder(PassOf(cfg, npInGlobals), cfg)
  {
    forall s, o, now | ValidState(s, cfg) && PassOf(cfg, npInGlobals)(s, o, now).Ok?
      ensures ValidState(PassOf(cfg, npInGlobals)(s, o, now).value.0, cfg)
      ensures PrintsInOrder(s, now, PassOf(cfg, npInGlobals)(s, o, now).value, cfg)
    {
      PassKeepsValid(s, o, now, cfg, npInGlobals);
      PassRecords(s, o, now, cfg, npInGlobals);
    }
  }

  /**
   * Where a run over frames ends: the state, the records printed, the exception that ended the
   * loop if any, and the number of frames consumed.
   */
  datatype RunOutcome = RunOutcome(state: LoopState, records: seq<Record>, err: Option<PyError>, done: nat)

  /** The observations of a sequence of frames, each with the clock time it was read at. */
  function Observed(frames: seq<(Frame, real)>, log10: real -> real): (obs: seq<(Observation, real)>)
    ensures |obs| == |frames|
    ensures forall i :: 0 <= i < |frames| ==> obs[i] == (Observe(frames[i].0, log10), frames[i].1)
  {
    seq(|frames|, i requires 0 <= i < |frames| => (Observe(frames[i].0, log10), frames[i].1))
  }

  /**
   * The loop over observed frames, each with the clock time it was read at: pass after pass
   * until the frames run out or a pass raises, which ends the loop with the state that pass
   * found.
   */
  function RunSpec(s: LoopState, obs: seq<(Observation, real)>, pass: PassFn): RunOutcome
    decreases |obs|
  {
    if obs == [] then RunOutcome(s, [], None, 0)
    else
      match pass(s, obs[0].0, obs[0].1)
      case Err(e) => RunOutcome(s, [], Some(e), 1)
      case Ok((s1, rs)) =>
        var rest := RunSpec(s1, obs[1..], pass);
        RunOutcome(rest.state, rs + rest.records, rest.err, rest.done + 1)
  }

  /**
   * A run consumes every frame when no pass raises. When one does, it is the last frame
   * consumed: its pass from the state the run ends in raises the reported exception, and the
   * frames before it run without exception to that state and those records.
   */
  lemma {:induction false} RunStopsAtFirstError(s: LoopState, obs: seq<(Observation, real)>, pass: PassFn)
    decreases |obs|
    ensures var r := RunSpec(s, obs, pass);
      && r.done <= |obs|
      && (r.err.None? ==> r.done == |obs|)
      && (r.err.Some? ==>
            && 1 <= r.done
            && pass(r.state, obs[r.done - 1].0, obs[r.done - 1].1) == Err(r.err.value)
            && RunSpec(s, obs[..r.done - 1], pass) == RunOutcome(r.state, r.records, None, r.done - 1))
  {
    if obs != [] {
      var p := pass(s, obs[0].0, obs[0].1);
      if p.Err? {
        assert obs[..0] == [];
      } else {
        var (s1, rs) := p.value;
        var rest := RunSpec(s1, obs[1..], pass);
        RunStopsAtFirstError(s1, obs[1..], pass);
        if rest.err.Some? {
          var d := rest.done;
          assert obs[1..][d - 1] == obs[d];
          var pre := obs[..d];
          assert pre[0] == obs[0] && pre[1..] == obs[1..][..d - 1];
        }
      }
    }
  }

  /**
   * A run of a pass that keeps order, from a valid state, leaves a valid state; its records
   * cover consecutive seconds from the initial cursor with no gap and no repeat, and the cursor
   * ends just after them; every value they show lies in the band; and when no pass raised, the
   * cursor ends past the last frame's clock time.
   */
  lemma {:induction false} RunRecords(s: LoopState, obs: seq<(Observation, real)>, pass: PassFn, cfg: Config)
    requires ValidState(s, cfg) && KeepsOrder(pass, cfg)
    decreases |obs|
    ensures var r := RunSpec(s, obs, pass);
      && ValidState(r.state, cfg)
      && r.state.nextTick == s.nextTick + |r.records|
      && (forall i :: 0 <= i < |r.records| ==> r.records[i].unixS == s.nextTick + i)
      && ShowsInBand(r.records, cfg.fLow, cfg.fHigh)
      && (r.err.None? && obs != [] ==> r.state.nextTick as real > obs[|obs| - 1].1)
  {
    if obs != [] {
      var p := pass(s, obs[0].0, obs[0].1);
      if p.Ok? {
        var (s1, rs) := p.value;
        KeepsOrderAt(pass, cfg, s, obs[0].0, obs[0].1);
        var rest := RunSpec(s1, obs[1..], pass);
        RunRecords(s1, obs[1..], pass, cfg);
        ConsecutiveAppend(rs, rest.records, s.nextTick, cfg.fLow, cfg.fHigh);
        if obs[1..] != [] {
          assert obs[1..][|obs[1..]| - 1] == obs[|obs| - 1];
        }
      }
    }
  }

  /** The outcome of a run that consumed `done` frames and printed `records` before reaching `r`. */
  function After(records: seq<Record>, done: nat, r: RunOutcome): RunOutcome
  {
    RunOutcome(r.state, records + r.records, r.err, done + r.done)
  }

  /**
   * A run split before frame `done` goes on with the pass on that frame: an exception there
   * ends the run in the state the pass found; otherwise the run continues from the state it
   * left, after its records.
   */
  lemma RunAfterPass(start: LoopState, obs: seq<(Observation, real)>, pass: PassFn, records: seq<Record>,
                     done: nat, before: LoopState, after: LoopState, out: Result<seq<Record>, PyError>)
    requires done < |obs|
    requires RunSpec(start, obs, pass) == After(records, done, RunSpec(before, obs[done..], pass))
    requires Follows(pass(before, obs[done].0, obs[done].1), before, after, out)
    ensures out.Err? ==> RunSpec(start, obs, pass) == RunOutcome(before, records, Some(out.error), done + 1)
    ensures out.Ok? ==>
      RunSpec(start, obs, pass) == After(records + out.value, done + 1, RunSpec(after, obs[done + 1..], pass))
  {
    assert obs[done..][0] == obs[done] && obs[done..][1..] == obs[done + 1..];
    if out.Ok? {
      var rest := RunSpec(after, obs[done + 1..], pass);
      assert records + (out.value + rest.records) == (records + out.value) + rest.records;
    }
  }

  /** With a non-zero `max_ratio` and a positive `maxlen` no pass raises, and every frame is consumed. */
  lemma {:induction false} RunWithoutErrors(s: LoopState, obs: seq<(Observation, real)>, cfg: Config, npInGlobals: bool)
    requires cfg.maxRatio != 0.0 && cfg.smoothWindow > 0
    decreases |obs|
    ensures RunSpec(s, obs, PassOf(cfg, npInGlobals)).err == None
    ensures RunSpec(s, obs, PassOf(cfg, npInGlobals)).done == |obs|
  {
    if obs != [] {
      PassRaises(s, obs[0].0, obs[0].1, cfg, npInGlobals);
      var (s1, rs) := Pass(s, obs[0].0, obs[0].1, cfg, npInGlobals).value;
      RunWithoutErrors(s1, obs[1..], cfg, npInGlobals);
    }
  }

  /** A pass's outcome `out` and the state it leaves, `after`, are what `r` gives from `before`. */
  predicate Follows(r: Result<(LoopState, seq<Record>), PyError>, before: LoopState, after: LoopState,
                    out: Result<seq<Record>, PyError>)
  {
    match r
    case Err(e) => out == Err(e) && after == before
    case Ok((s1, rs)) => out == Ok(rs) && after == s1
  }

  /** The loop state of `main`: the deque, the smoothed value, its time, and the tick cursor. */
  class Pipeline {
    const cfg: Config
    var buf: seq<real>
    var lastGood: Option<real>
    var lastGoodT: real
    var nextTick: int

    function State(): LoopState
      reads this
    {
      LoopState(buf, lastGood, lastGoodT, nextTick)
    }

    predicate Valid()
      reads this
    {
      ValidState(State(), cfg)
    }

    /** The state before the first frame, started at clock time `t0`. */
    constructor (cfg: Config, t0: real)
      ensures Valid()
      ensures this.cfg == cfg && State() == LoopState([], None, 0.0, t0.Floor + 1)
    {
      this.cfg := cfg;
      buf := [];
      lastGood := None;
      lastGoodT := 0.0;
      nextTick := t0.Floor + 1;
    }

    /** The smoothed value, while one exists, lies in the band. */
    lemma SmoothedInBand()
      requires Valid()
      ensures lastGood.Some? ==> Bpm(cfg.fLow) <= lastGood.value <= Bpm(cfg.fHigh)
    {
      if lastGood.Some? {
        SmoothBounded(buf, cfg.smooth, Bpm(cfg.fLow), Bpm(cfg.fHigh));
      }
    }

    /** `q.append(raw_bpm)` and the recomputation of the smoothed value, stamped `now`. */
    method Accept(raw: real, now: real) returns (err: Option<PyError>)
      requires Valid() && Bpm(cfg.fLow) <= raw <= Bpm(cfg.fHigh)
      modifies this
      ensures Valid()
      ensures match Accepted(old(State()), raw, now, cfg)
        case Err(e) => err == Some(e) && State() == old(State())
        case Ok(s1) => err == None && State() == s1
    {
      ghost var before := State();
      AcceptedKeepsValid(before, raw, now, cfg);
      var q := DequePush(buf, raw, cfg.smoothWindow);
      var smoothed := Smooth(q, cfg.smooth);
      if smoothed.Err? {
        return Some(smoothed.error);
      }
      assert Accepted(before, raw, now, cfg) == Ok(LoopState(q, Some(smoothed.value), now, before.nextTick));
      buf, lastGood, lastGoodT := q, Some(smoothed.value), now;
      assert State() == LoopState(q, Some(smoothed.value), now, before.nextTick);
      err := None;
    }

    /**
     * The `while now >= next_tick` loop: one record for each second from the cursor up to
     * `floor(now)`, all showing `bpm` and `notes`.
     */
    method Emit(now: real, bpm: Option<real>, notes: seq<Note>) returns (records: seq<Record>)
      modifies this`nextTick
      ensures nextTick == old(nextTick) + TickCount(old(nextTick), now)
      ensures records == CatchUp(old(nextTick), now, bpm, notes)
    {
      var start := nextTick;
      records := [];
      while now >= nextTick as real
        invariant start <= nextTick <= start + TickCount(start, now)
        invariant |records| == nextTick - start
        invariant forall i :: 0 <= i < |records| ==> records[i] == Record(start + i, bpm, notes)
        decreases now.Floor - nextTick + 1
      {
        records := records + [Record(nextTick, bpm, notes)];
        nextTick := nextTick + 1;
      }
      assert records == CatchUp(start, now, bpm, notes);
    }

    /**
     * The gate and, for an accepted frame, the smoothing update: the verdict, or the exception
     * the gate or the smoothing raises, which leaves the state as it was.
     */
    method Admit(o: Observation, now: real, npInGlobals: bool) returns (r: Result<bool, PyError>)
      requires Valid()
      modifies this
      ensures Valid()
      ensures match Admitted(old(State()), o, now, cfg, npInGlobals)
        case Err(e) => r == Err(e) && State() == old(State())
        case Ok((valid, s1)) => r == Ok(valid) && State() == s1
    {
      var verdict := VerdictOn(o, lastGood, cfg, npInGlobals);
      if verdict.Err? {
        return Err(verdict.error);
      }
      var valid := verdict.value;
      if valid {
        AcceptedIffAllChecksPass(o.ip, o.snr, o.raw, o.ps, lastGood, cfg, npInGlobals);
        var raised := Accept(o.raw.value, now);
        if raised.Some? {
          return Err(raised.value);
        }
      }
      r := Ok(valid);
    }

    /** The gate, the smoothing update and the emitter, on an observation already measured. */
    method Update(o: Observation, now: real, npInGlobals: bool) returns (out: Result<seq<Record>, PyError>)
      requires Valid()
      modifies this
      ensures Valid()
      ensures Follows(Pass(old(State()), o, now, cfg, npInGlobals), old(State()), State(), out)
    {
      ghost var before := State();
      var admitted := Admit(o, now, npInGlobals);
      if admitted.Err? {
        return Err(admitted.error);
      }
      var valid := admitted.value;
      ghost var s1 := State();
      PassProceeds(before, o, now, cfg, npInGlobals, valid, s1);
      var bpm := Shown(lastGood, lastGoodT, now, cfg.holdLastFor);
      var notes := NotesV2(bpm.Some?, o.snr, o.ip, o.raw, valid, cfg, o.fEst, o.fDft);
      var records := Emit(now, bpm, notes);
      assert State() == s1.(nextTick := before.nextTick + TickCount(before.nextTick, now));
      out := Ok(records);
    }

    /** One pass of the loop on frame `res`, read at clock time `now`. */
    method Step(res: Frame, now: real, npInGlobals: bool, log10: real -> real)
        returns (out: Result<seq<Record>, PyError>)
      requires Valid()
      modifies this
      ensures Valid()
      ensures Follows(Pass(old(State()), Observe(res, log10), now, cfg, npInGlobals), old(State()), State(), out)
    {
      var o := Measure(res, log10);
      out := Update(o, now, npInGlobals);
    }

    /**
     * The loop over a sequence of frames, each with the clock time it was read at, until the
     * frames run out or a pass raises: the state it leaves, the records it prints, the
     * exception that ended it and the number of frames consumed are those of `RunSpec`.
     */
    method Run(frames: seq<(Frame, real)>, npInGlobals: bool, log10: real -> real)
        returns (records: seq<Record>, err: Option<PyError>, done: nat)
      requires Valid()
      modifies this
      ensures Valid()
      ensures RunOutcome(State(), records, err, done) == RunSpec(old(State()), Observed(frames, log10), PassOf(cfg, npInGlobals))
    {
      ghost var start := State();
      ghost var obs := Observed(frames, log10);
      ghost var pass := PassOf(cfg, npInGlobals);
      records, err, done := [], None, 0;
      assert obs[0..] == obs;
      while done < |frames|
        invariant done <= |frames|
        invariant Valid()
        invariant RunSpec(start, obs, pass) == After(records, done, RunSpec(State(), obs[done..], pass))
        decreases |frames| - done
      {
        var (res, now) := frames[done];
        ghost var before := State();
        var out := Step(res, now, npInGlobals, log10);
        assert obs[done] == (Observe(res, log10), now);
        assert pass(before, obs[done].0, obs[done].1) == Pass(before, Observe(res, log10), now, cfg, npInGlobals);
        RunAfterPass(start, obs, pass, records, done, before, State(), out);
        done := done + 1;
        match out {
          case Err(e) =>
            return records, Some(e), done;
          case Ok(rs) =>
            records := records + rs;
        }
      }
      assert obs[done..] == [];
    }
  }
}
