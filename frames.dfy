/**
 * The Python side of one processed sensor frame: the loosely typed result the estimator
 * hands back (a dict, or something that is not a dict), its values, `res.get`, and the
 * first-match search over a fixed tuple of key names that both logger versions use.
 */
module Frames {
  import opened Wrappers

  /** One element of a numeric array once numpy has converted it to float. */
  datatype Sample = Finite(x: real) | PosInf | NegInf | NaN

  /**
   * A value found in the result dict.
   * VNum(x): anything `float()` turns into the finite number x (an int, a float, a numeric string).
   * VNonFinite: anything `float()` turns into inf or nan.
   * VList(items): a list that `np.asarray(_, dtype=float)` turns into a one-dimensional array.
   * VOther: anything else `float()` refuses (a non-numeric string, a dict, a nested list).
   */
  datatype Value = VNone | VBool(b: bool) | VNum(x: real) | VNonFinite | VList(items: seq<Sample>) | VOther

  /** The estimator's result: a dict from key names to values, or any non-dict object. */
  datatype Frame = NotDict | Dict(fields: map<string, Value>)

  /** Exceptions the frame loop can raise and does not catch. */
  datatype PyError = ZeroDivisionError | IndexError

  /** `res.get(k) if isinstance(res, dict) else None`: a missing key reads as None. */
  function Get(res: Frame, k: string): (v: Value)
    ensures res.NotDict? ==> v == VNone
    ensures res.Dict? && k !in res.fields ==> v == VNone
    ensures res.Dict? && k in res.fields ==> v == res.fields[k]
  {
    match res
    case NotDict => VNone
    case Dict(m) => if k in m then m[k] else VNone
  }

  /** `isinstance(res, dict) and res.get(k)`: for a non-dict this evaluates to `False`. */
  function AndGet(res: Frame, k: string): (v: Value)
    ensures res.NotDict? ==> v == VBool(false)
    ensures res.Dict? ==> v == Get(res, k)
  {
    if res.NotDict? then VBool(false) else Get(res, k)
  }

  /** Key names, in priority order, of a breathing frequency in hertz. */
  const HZ_KEYS: seq<string> := ["f_est", "f_dft_est", "breathing_rate_hz", "freq_hz", "f_hat", "resp_rate_hz"]

  /** Key names, in priority order, of a breathing rate already in breaths per minute. */
  const BPM_KEYS: seq<string> := ["breathing_rate_bpm", "respiratory_rate_bpm", "bpm"]

  const INIT_PROGRESS_KEY := "init_progress"
  const SNR_KEY := "snr"
  const POWER_SPECTRUM_KEY := "power_spectrum"

  /** No key of `keys` yields a number under `coerce`. */
  predicate NoHit(res: Frame, keys: seq<string>, coerce: Value -> Option<real>)
  {
    forall i :: 0 <= i < |keys| ==> coerce(Get(res, keys[i])).None?
  }

  /** Position `i` is the first key of `keys` that yields a number under `coerce`. */
  predicate FirstHit(res: Frame, keys: seq<string>, coerce: Value -> Option<real>, i: int)
  {
    0 <= i < |keys| && coerce(Get(res, keys[i])).Some?
    && forall j :: 0 <= j < i ==> coerce(Get(res, keys[j])).None?
  }

  /**
   * The loop `for k in keys: v = coerce(res.get(k)); if v is not None: return v`, falling
   * through to None: the value of the first key, in tuple order, that yields a number.
   */
  function FirstMatch(res: Frame, keys: seq<string>, coerce: Value -> Option<real>): Option<real>
  {
    if keys == [] then None
    else
      var v := coerce(Get(res, keys[0]));
      if v.Some? then v else FirstMatch(res, keys[1..], coerce)
  }

  /** The search finds nothing exactly when no key yields a number, and otherwise finds the first hit. */
  lemma {:induction false} FirstMatchFindsFirstHit(res: Frame, keys: seq<string>, coerce: Value -> Option<real>)
    ensures FirstMatch(res, keys, coerce).None? <==> NoHit(res, keys, coerce)
    ensures forall i :: FirstHit(res, keys, coerce, i) ==> FirstMatch(res, keys, coerce) == coerce(Get(res, keys[i]))
  {
    if keys != [] && coerce(Get(res, keys[0])).None? {
      var tail := keys[1..];
      assert forall i :: 1 <= i < |keys| ==> tail[i - 1] == keys[i];
      FirstMatchFindsFirstHit(res, tail, coerce);
      assert forall i :: FirstHit(res, keys, coerce, i) ==> FirstHit(res, tail, coerce, i - 1);
    }
  }

  /** Two frames and coercions that agree on every key's coerced value find the same first match. */
  lemma {:induction false} FirstMatchAgrees(r1: Frame, r2: Frame, keys: seq<string>,
                                            c1: Value -> Option<real>, c2: Value -> Option<real>)
    requires forall i :: 0 <= i < |keys| ==> c1(Get(r1, keys[i])) == c2(Get(r2, keys[i]))
    ensures FirstMatch(r1, keys, c1) == FirstMatch(r2, keys, c2)
  {
    if keys != [] && c1(Get(r1, keys[0])).None? {
      assert forall i :: 0 <= i < |keys| - 1 ==> keys[1..][i] == keys[i + 1];
      FirstMatchAgrees(r1, r2, keys[1..], c1, c2);
    }
  }

  /**
   * `bpm_from_res` under a given coercion: 60 times the first hertz key that yields a number,
   * else the first bpm key that does, else None; None for a non-dict.
   */
  function RateBpm(res: Frame, coerce: Value -> Option<real>): Option<real>
  {
    if res.NotDict? then None
    else
      match FirstMatch(res, HZ_KEYS, coerce)
      case Some(hz) => Some(hz * 60.0)
      case None => FirstMatch(res, BPM_KEYS, coerce)
  }

  /**
   * The hertz keys take priority over the bpm keys and each list is searched in order; the
   * result is None exactly for a non-dict or when no key of either list yields a number.
   */
  lemma RateBpmResolves(res: Frame, coerce: Value -> Option<real>)
    ensures res.NotDict? ==> RateBpm(res, coerce) == None
    ensures forall i :: res.Dict? && FirstHit(res, HZ_KEYS, coerce, i)
              ==> RateBpm(res, coerce) == Some(60.0 * coerce(Get(res, HZ_KEYS[i])).value)
    ensures forall i :: res.Dict? && NoHit(res, HZ_KEYS, coerce) && FirstHit(res, BPM_KEYS, coerce, i)
              ==> RateBpm(res, coerce) == coerce(Get(res, BPM_KEYS[i]))
    ensures RateBpm(res, coerce).None? <==>
              res.NotDict? || (NoHit(res, HZ_KEYS, coerce) && NoHit(res, BPM_KEYS, coerce))
  {
    FirstMatchFindsFirstHit(res, HZ_KEYS, coerce);
    FirstMatchFindsFirstHit(res, BPM_KEYS, coerce);
  }

  /** Two dicts and coercions that agree on every rate key's coerced value give the same bpm value. */
  lemma RateBpmAgrees(r1: Frame, r2: Frame, c1: Value -> Option<real>, c2: Value -> Option<real>)
    requires r1.Dict? && r2.Dict?
    requires forall i :: 0 <= i < |HZ_KEYS| ==> c1(Get(r1, HZ_KEYS[i])) == c2(Get(r2, HZ_KEYS[i]))
    requires forall i :: 0 <= i < |BPM_KEYS| ==> c1(Get(r1, BPM_KEYS[i])) == c2(Get(r2, BPM_KEYS[i]))
    ensures RateBpm(r1, c1) == RateBpm(r2, c2)
  {
    FirstMatchAgrees(r1, r2, HZ_KEYS, c1, c2);
    FirstMatchAgrees(r1, r2, BPM_KEYS, c1, c2);
  }
}
