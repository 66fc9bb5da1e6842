/**
 * One pass of the frame loop of the earlier logger (a111_breathing_rasp_0902_v1.py): the three
 * basic checks on the reported SNR, a mean over the last five accepted values, and at most one
 * record per frame.
 */
module PipelineV1 {
  import opened Wrappers
  import opened Frames
  import Stats
  import opened Smoothing
  import opened Output
  import ExtractV1
  import opened Band

  /** The options the frame loop reads. */
  datatype Config = Config(fLow: real, fHigh: real, snrMin: real, holdLastFor: real)

  /** The argparse defaults. */
  const DEFAULTS := Config(0.08, 0.70, 10.0, 5.0)

  /** `smooth_window = 5`, the `maxlen` of the deque. */
  const SMOOTH_WINDOW: nat := 5

  /** What one frame yields: reported SNR, normalised progress and raw bpm. */
  datatype Observation = Observation(snr: Option<real>, ip: real, raw: Option<real>)

  function Observe(res: Frame): Observation
  {
    Observation(ExtractV1.ReportedSnr(res), ExtractV1.NormInitProgress(res), ExtractV1.BpmFromRes(res))
  }

  /** The gate: warm-up done, SNR unknown or high enough, raw bpm present and in band. */
  predicate Accepts(o: Observation, cfg: Config)
  {
    BasicChecks(o.ip, o.snr, o.raw, cfg.snrMin, cfg.fLow, cfg.fHigh)
  }

  /** A frame is accepted exactly when its three checks pass. */
  lemma AcceptsIffChecksPass(o: Observation, cfg: Config)
    ensures Accepts(o, cfg) <==> (o.ip >= 0.99 && (o.snr.None? || o.snr.value >= cfg.snrMin)
                                  && o.raw.Some? && 60.0 * cfg.fLow <= o.raw.value <= 60.0 * cfg.fHigh)
  {
  }

  /**
   * A non-dict frame is never accepted: its progress coerces from `False` to 0.0, below the
   * warm-up threshold.
   */
  lemma NonDictNeverAccepted(cfg: Config)
    ensures !Accepts(Observe(NotDict), cfg)
  {
  }

  /** The note tokens: `snr=`, `init=`, and `raw=` for a raw value the gate rejected. */
  function NotesV1(snr: Option<real>, ip: real, raw: Option<real>, valid: bool): seq<Note>
  {
    Present(Slots(false, snr, ip, if valid then None else raw, None, None))
  }

  /**
   * The tokens come in the fixed order, each at most once: `snr=` when an SNR is known, `init=`
   * always, `raw=` whenever a raw value exists and the frame was rejected, whatever its band;
   * never `held=1` and no debug tokens.
   */
  lemma NotesV1Tokens(snr: Option<real>, ip: real, raw: Option<real>, valid: bool)
    ensures var notes := NotesV1(snr, ip, raw, valid);
      && InNoteOrder(notes)
      && Held !in notes
      && (forall v :: SnrNote(v) in notes <==> snr == Some(v))
      && (forall v :: InitNote(v) in notes <==> v == ip)
      && (forall v :: RawNote(v) in notes <==> raw == Some(v) && !valid)
      && (forall v :: FEstNote(v) !in notes && FDftNote(v) !in notes)
  {
    NotesOfSlots(false, snr, ip, if valid then None else raw, None, None);
  }

  /**
   * The loop state between passes: the deque holds at most five accepted, hence in-band,
   * values; a mean exists exactly when the deque is non-empty, and it is their arithmetic mean.
   */
  predicate ValidState(s: LoopState, cfg: Config)
  {
    |s.buf| <= SMOOTH_WINDOW && Stats.Bounded(s.buf, Bpm(cfg.fLow), Bpm(cfg.fHigh))
    && (s.lastGood.None? <==> s.buf == [])
    && (s.lastGood.Some? ==> s.lastGood.value == Stats.Mean(s.buf))
  }

  /** `q.append(raw_bpm)`, `last_good_bpm = sum(q)/len(q)`, `last_good_t = now`. */
  function Accepted(s: LoopState, raw: real, now: real): LoopState
  {
    var q := DequePush(s.buf, raw, SMOOTH_WINDOW);
    LoopState(q, Some(Stats.Mean(q)), now, s.nextTick)
  }

  /** Accepting an in-band value keeps the state valid. */
  lemma AcceptedKeepsValid(s: LoopState, raw: real, now: real, cfg: Config)
    requires ValidState(s, cfg) && Bpm(cfg.fLow) <= raw <= Bpm(cfg.fHigh)
    ensures ValidState(Accepted(s, raw, now), cfg)
  {
    PushBounded(s.buf, raw, SMOOTH_WINDOW, Bpm(cfg.fLow), Bpm(cfg.fHigh));
  }

  /**
   * One pass of the loop body on observation `o` at clock time `now`: the state it leaves and
   * the record it prints, if any. An accepted frame is pushed and the mean recomputed; then,
   * when `now` has reached the cursor, one record for the cursor's second, after which the
   * cursor moves on by one.
   */
  function Pass(s: LoopState, o: Observation, now: real, cfg: Config): (LoopState, Option<Record>)
  {
    var valid := Accepts(o, cfg);
    var s1 := if valid then Accepted(s, o.raw.value, now) else s;
    if now >= s.nextTick as real then
      (s1.(nextTick := s.nextTick + 1),
       Some(Record(s.nextTick, Shown(s1.lastGood, s1.lastGoodT, now, cfg.holdLastFor), NotesV1(o.snr, o.ip, o.raw, valid))))
    else (s1, None)
  }

  /** A pass from a valid state leaves a valid state. */
  lemma PassKeepsValid(s: LoopState, o: Observation, now: real, cfg: Config)
    requires ValidState(s, cfg)
    ensures ValidState(Pass(s, o, now, cfg).0, cfg)
  {
    if Accepts(o, cfg) {
      PushBounded(s.buf, o.raw.value, SMOOTH_WINDOW, Bpm(cfg.fLow), Bpm(cfg.fHigh));
    }
  }

  /**
   * A rejected frame leaves the deque, the mean and its time as they were; an accepted one
   * appends its in-band raw value, evicting the oldest of five, and makes the mean of the new
   * deque, stamped `now`, current. The cursor is left to the emitter.
   */
  lemma PassAverages(s: LoopState, o: Observation, now: real, cfg: Config)
    ensures var s1 := Pass(s, o, now, cfg).0;
      && (!Accepts(o, cfg) ==> s1.buf == s.buf && s1.lastGood == s.lastGood && s1.lastGoodT == s.lastGoodT)
      && (Accepts(o, cfg) ==>
            && InBand(o.raw, cfg.fLow, cfg.fHigh)
            && s1.buf == DequePush(s.buf, o.raw.value, SMOOTH_WINDOW)
            && s1.buf[|s1.buf| - 1] == o.raw.value
            && s1.lastGood == Some(Stats.Mean(s1.buf)) && s1.lastGoodT == now)
  {
  }

  /**
   * A pass prints exactly when `now` has reached the cursor: one record, for the cursor's
   * second, showing a value in the band or none, after which the cursor has moved on by one;
   * otherwise nothing, and the cursor stays.
   */
  lemma PassRecord(s: LoopState, o: Observation, now: real, cfg: Config)
    requires ValidState(s, cfg)
    ensures var (s1, rec) := Pass(s, o, now, cfg);
      && (rec.Some? <==> now >= s.nextTick as real)
      && s1.nextTick == s.nextTick + (if rec.Some? then 1 else 0)
      && (rec.Some? ==> rec.value.unixS == s.nextTick)
      && (rec.Some? && rec.value.bpm.Some? ==> Bpm(cfg.fLow) <= rec.value.bpm.value <= Bpm(cfg.fHigh))
  {
    PassKeepsValid(s, o, now, cfg);
    var s1 := Pass(s, o, now, cfg).0;
    if s1.lastGood.Some? {
      Stats.MeanBounded(s1.buf, Bpm(cfg.fLow), Bpm(cfg.fHigh));
    }
  }

  /** The observations of a sequence of frames, each with the clock time it was read at. */
  function Observed(frames: seq<(Frame, real)>): (obs: seq<(Observation, real)>)
    ensures |obs| == |frames|
    ensures forall i :: 0 <= i < |frames| ==> obs[i] == (Observe(frames[i].0), frames[i].1)
  {
    seq(|frames|, i requires 0 <= i < |frames| => (Observe(frames[i].0), frames[i].1))
  }

  /** The loop over observed frames, each with the clock time it was read at: the state left and the records printed. */
  function RunSpec(s: LoopState, obs: seq<(Observation, real)>, cfg: Config): (LoopState, seq<Record>)
    decreases |obs|
  {
    if obs == [] then (s, [])
    else
      var (s1, rec) := Pass(s, obs[0].0, obs[0].1, cfg);
      var (s2, rs) := RunSpec(s1, obs[1..], cfg);
      (s2, (if rec.Some? then [rec.value] else []) + rs)
  }

  /**
   * Where the cursor ends after frames read at the given clock times: it moves on by one
   * second for each frame read at or after it, and stays otherwise.
   */
  function Cursor(c: int, obs: seq<(Observation, real)>): int
    decreases |obs|
  {
    if obs == [] then c
    else Cursor(if obs[0].1 >= c as real then c + 1 else c, obs[1..])
  }

  /**
   * A run from a valid state leaves a valid state; it prints at most one record per frame,
   * for consecutive seconds from the initial cursor, each showing a value in the band or none;
   * and the cursor ends just after them, where `Cursor` says.
   */
  lemma {:induction false} RunRecords(s: LoopState, obs: seq<(Observation, real)>, cfg: Config)
    requires ValidState(s, cfg)
    decreases |obs|
    ensures var (s2, records) := RunSpec(s, obs, cfg);
      && ValidState(s2, cfg)
      && |records| <= |obs|
      && s2.nextTick == s.nextTick + |records| == Cursor(s.nextTick, obs)
      && (forall i :: 0 <= i < |records| ==> records[i].unixS == s.nextTick + i)
      && ShowsInBand(records, cfg.fLow, cfg.fHigh)
  {
    if obs != [] {
      var (s1, rec) := Pass(s, obs[0].0, obs[0].1, cfg);
      PassKeepsValid(s, obs[0].0, obs[0].1, cfg);
      PassRecord(s, obs[0].0, obs[0].1, cfg);
      RunRecords(s1, obs[1..], cfg);
      var (s2, rs) := RunSpec(s1, obs[1..], cfg);
      var head := if rec.Some? then [rec.value] else [];
      assert RunSpec(s, obs, cfg) == (s2, head + rs);
      ConsecutiveAppend(head, rs, s.nextTick, cfg.fLow, cfg.fHigh);
    }
  }

  /** The outcome of a run that printed `records` before reaching `r`. */
  function Prefixed(records: seq<Record>, r: (LoopState, seq<Record>)): (LoopState, seq<Record>)
  {
    (r.0, records + r.1)
  }

  /** A run split before frame `k` goes on with the pass on that frame, from the state it left. */
  lemma RunAfterPass(start: LoopState, obs: seq<(Observation, real)>, cfg: Config, records: seq<Record>, k: nat,
                     before: LoopState, after: LoopState, rec: Option<Record>)
    requires k < |obs|
    requires RunSpec(start, obs, cfg) == Prefixed(records, RunSpec(before, obs[k..], cfg))
    requires (after, rec) == Pass(before, obs[k].0, obs[k].1, cfg)
    ensures RunSpec(start, obs, cfg)
      == Prefixed(records + (if rec.Some? then [rec.value] else []), RunSpec(after, obs[k + 1..], cfg))
  {
    assert obs[k..][0] == obs[k] && obs[k..][1..] == obs[k + 1..];
    var rest := RunSpec(after, obs[k + 1..], cfg).1;
    var head := if rec.Some? then [rec.value] else [];
    assert records + (head + rest) == (records + head) + rest;
  }

  /** The loop state of `main`: the deque, the mean, its time, and the tick cursor. */
  class Pipeline {
    const cfg: Config
    var buf: seq<real>
    var lastGood: Option<real>
    var lastGoodT: real
    var nextTick: int

    function State(): LoopState
      reads this
    {
      LoopState(buf, lastGood, lastGoodT, nextTick)
    }

    predicate Valid()
      reads this
    {
      ValidState(State(), cfg)
    }

    /** The state before the first frame, started at clock time `t0`. */
    constructor (cfg: Config, t0: real)
      ensures Valid()
      ensures this.cfg == cfg && State() == LoopState([], None, 0.0, t0.Floor + 1)
    {
      this.cfg := cfg;
      buf := [];
      lastGood := None;
      lastGoodT := 0.0;
      nextTick := t0.Floor + 1;
    }

    /** The mean, while one exists, lies in the band. */
    lemma MeanInBand()
      requires Valid()
      ensures lastGood.Some? ==> Bpm(cfg.fLow) <= lastGood.value <= Bpm(cfg.fHigh)
    {
      if lastGood.Some? {
        Stats.MeanBounded(buf, Bpm(cfg.fLow), Bpm(cfg.fHigh));
      }
    }

    /** `q.append(raw_bpm)`, `last_good_bpm = sum(q)/len(q)`, `last_good_t = now`. */
    method Accept(raw: real, now: real)
      requires Valid() && Bpm(cfg.fLow) <= raw <= Bpm(cfg.fHigh)
      modifies this`buf, this`lastGood, this`lastGoodT
      ensures Valid()
      ensures State() == Accepted(old(State()), raw, now)
    {
      ghost var before := State();
      AcceptedKeepsValid(before, raw, now, cfg);
      var q := DequePush(buf, raw, SMOOTH_WINDOW);
      var m := Stats.Mean(q);
      assert LoopState(q, Some(m), now, nextTick) == Accepted(before, raw, now);
      buf, lastGood, lastGoodT := q, Some(m), now;
      assert State() == LoopState(q, Some(m), now, before.nextTick);
    }

    /** The gate, the mean update and the emitter, on an observation already read. */
    method Update(o: Observation, now: real) returns (rec: Option<Record>)
      requires Valid()
      modifies this
      ensures Valid()
      ensures (State(), rec) == Pass(old(State()), o, now, cfg)
    {
      var valid := Accepts(o, cfg);
      if valid {
        Accept(o.raw.value, now);
      }
      if now >= nextTick as real {
        var bpm := Shown(lastGood, lastGoodT, now, cfg.holdLastFor);
        rec := Some(Record(nextTick, bpm, NotesV1(o.snr, o.ip, o.raw, valid)));
        nextTick := nextTick + 1;
      } else {
        rec := None;
      }
    }

    /** One pass of the loop on frame `res` read at clock time `now`. */
    method Step(res: Frame, now: real) returns (rec: Option<Record>)
      requires Valid()
      modifies this
      ensures Valid()
      ensures (State(), rec) == Pass(old(State()), Observe(res), now, cfg)
    {
      rec := Update(Observe(res), now);
    }

    /**
     * The loop over a sequence of frames, each with the clock time it was read at: the state
     * it leaves and the records it prints are those of `RunSpec`.
     */
    method Run(frames: seq<(Frame, real)>) returns (records: seq<Record>)
      requires Valid()
      modifies this
      ensures Valid()
      ensures (State(), records) == RunSpec(old(State()), Observed(frames), cfg)
    {
      ghost var start := State();
      ghost var obs := Observed(frames);
      records := [];
      var k := 0;
      assert obs[0..] == obs && [] + RunSpec(start, obs, cfg).1 == RunSpec(start, obs, cfg).1;
      while k < |frames|
        invariant 0 <= k <= |frames|
        invariant Valid()
        invariant RunSpec(start, obs, cfg) == Prefixed(records, RunSpec(State(), obs[k..], cfg))
      {
        var (res, now) := frames[k];
        ghost var before := State();
        var rec := Step(res, now);
        assert obs[k] == (Observe(res), now);
        RunAfterPass(start, obs, cfg, records, k, before, State(), rec);
        if rec.Some? {
          records := records + [rec.value];
        } else {
          assert records + [] == records;
        }
        k := k + 1;
      }
      assert obs[k..] == [];
      assert records + [] == records;
    }
  }

}
