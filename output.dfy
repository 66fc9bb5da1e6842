/**
 * The records the logger prints, one per unix second: the second, the bpm text (empty or a
 * number) and the `/`-joined note tokens. Rendering (`%H:%M:%S`, `.2f`, the joining) is not
 * modelled; a record holds the values that would be rendered.
 */
module Output {
  import opened Wrappers

  /** Note tokens: `held=1`, `snr=`, `init=`, `raw=`, and the debug-only `f_est=` and `f_dft=`. */
  datatype Note = Held | SnrNote(snr: real) | InitNote(init: real) | RawNote(raw: real)
                | FEstNote(fEst: real) | FDftNote(fDft: real)

  datatype Record = Record(unixS: int, bpm: Option<real>, notes: seq<Note>)

  /**
   * What the frame loop of `main` carries from one pass to the next: the deque of accepted raw
   * values, the smoothed value and the time it was taken, and the tick cursor `next_tick`.
   */
  datatype LoopState = LoopState(buf: seq<real>, lastGood: Option<real>, lastGoodT: real, nextTick: int)

  /** The position of a token kind in the fixed note order. */
  function Rank(n: Note): nat
  {
    match n
    case Held => 0
    case SnrNote(_) => 1
    case InitNote(_) => 2
    case RawNote(_) => 3
    case FEstNote(_) => 4
    case FDftNote(_) => 5
  }

  /** Tokens appear in the fixed order, each kind at most once. */
  predicate InNoteOrder(notes: seq<Note>)
  {
    forall i, j :: 0 <= i < j < |notes| ==> Rank(notes[i]) < Rank(notes[j])
  }

  /** The tokens of the slots that hold one, in slot order. */
  function Present(slots: seq<Option<Note>>): seq<Note>
  {
    if slots == [] then []
    else (if slots[0].Some? then [slots[0].value] else []) + Present(slots[1..])
  }

  /** Slot `i` may only hold a token of rank `base + i`. */
  predicate RankedFrom(slots: seq<Option<Note>>, base: nat)
  {
    forall i :: 0 <= i < |slots| && slots[i].Some? ==> Rank(slots[i].value) == base + i
  }

  /** A token of lower rank than every token of an ordered sequence can go in front of it. */
  lemma OrderCons(h: Note, rest: seq<Note>)
    requires InNoteOrder(rest)
    requires forall i :: 0 <= i < |rest| ==> Rank(h) < Rank(rest[i])
    ensures InNoteOrder([h] + rest)
  {
  }

  /** Ranked slots give their tokens in the fixed order, all of rank at least `base`. */
  lemma {:induction false} PresentInOrder(slots: seq<Option<Note>>, base: nat)
    requires RankedFrom(slots, base)
    ensures InNoteOrder(Present(slots))
    ensures forall i :: 0 <= i < |Present(slots)| ==> base <= Rank(Present(slots)[i])
  {
    if slots != [] {
      var rest := Present(slots[1..]);
      assert RankedFrom(slots[1..], base + 1) by {
        forall i | 0 <= i < |slots| - 1 ensures slots[1..][i] == slots[i + 1] { }
      }
      PresentInOrder(slots[1..], base + 1);
      if slots[0].Some? {
        OrderCons(slots[0].value, rest);
      }
    }
  }

  /** A token is among those of ranked slots exactly when the slot of its rank holds it. */
  lemma {:induction false} PresentMembers(slots: seq<Option<Note>>, base: nat)
    requires RankedFrom(slots, base)
    ensures forall x :: x in Present(slots) <==>
      base <= Rank(x) < base + |slots| && slots[Rank(x) - base] == Some(x)
  {
    if slots != [] {
      var tail := slots[1..];
      assert forall i :: 0 <= i < |tail| ==> tail[i] == slots[i + 1];
      PresentMembers(tail, base + 1);
    }
  }

  /** The six note slots in the fixed order, each holding its token when the value is present. */
  function Slots(held: bool, snr: Option<real>, ip: real, raw: Option<real>,
                 fEst: Option<real>, fDft: Option<real>): seq<Option<Note>>
  {
    [if held then Some(Held) else None,
     if snr.Some? then Some(SnrNote(snr.value)) else None,
     Some(InitNote(ip)),
     if raw.Some? then Some(RawNote(raw.value)) else None,
     if fEst.Some? then Some(FEstNote(fEst.value)) else None,
     if fDft.Some? then Some(FDftNote(fDft.value)) else None]
  }

  /** The slots are ranked from 0, so their tokens are ordered and each is where its rank says. */
  lemma SlotsRanked(held: bool, snr: Option<real>, ip: real, raw: Option<real>,
                    fEst: Option<real>, fDft: Option<real>)
    ensures InNoteOrder(Present(Slots(held, snr, ip, raw, fEst, fDft)))
    ensures forall x :: x in Present(Slots(held, snr, ip, raw, fEst, fDft)) <==>
      Rank(x) < 6 && Slots(held, snr, ip, raw, fEst, fDft)[Rank(x)] == Some(x)
  {
    var slots := Slots(held, snr, ip, raw, fEst, fDft);
    assert RankedFrom(slots, 0);
    PresentInOrder(slots, 0);
    PresentMembers(slots, 0);
  }

  /** The leading tokens: `held=1` exactly when held, `snr=` exactly when an SNR is known, `init=` always. */
  lemma SlotNotesLeading(held: bool, snr: Option<real>, ip: real, raw: Option<real>,
                         fEst: Option<real>, fDft: Option<real>)
    ensures Held in Present(Slots(held, snr, ip, raw, fEst, fDft)) <==> held
    ensures forall v :: SnrNote(v) in Present(Slots(held, snr, ip, raw, fEst, fDft)) <==> snr == Some(v)
    ensures forall v :: InitNote(v) in Present(Slots(held, snr, ip, raw, fEst, fDft)) <==> v == ip
  {
    SlotsRanked(held, snr, ip, raw, fEst, fDft);
  }

  /** The trailing tokens `raw=`, `f_est=` and `f_dft=`, each exactly when its value is present. */
  lemma SlotNotesTrailing(held: bool, snr: Option<real>, ip: real, raw: Option<real>,
                          fEst: Option<real>, fDft: Option<real>)
    ensures forall v :: RawNote(v) in Present(Slots(held, snr, ip, raw, fEst, fDft)) <==> raw == Some(v)
    ensures forall v :: FEstNote(v) in Present(Slots(held, snr, ip, raw, fEst, fDft)) <==> fEst == Some(v)
    ensures forall v :: FDftNote(v) in Present(Slots(held, snr, ip, raw, fEst, fDft)) <==> fDft == Some(v)
  {
    SlotsRanked(held, snr, ip, raw, fEst, fDft);
  }

  /**
   * The note tokens of one record: in the fixed order, `held=1` exactly when held, each of
   * `snr=`, `raw=`, `f_est=` and `f_dft=` exactly when its value is present, and `init=` always.
   */
  lemma NotesOfSlots(held: bool, snr: Option<real>, ip: real, raw: Option<real>,
                     fEst: Option<real>, fDft: Option<real>)
    ensures InNoteOrder(Present(Slots(held, snr, ip, raw, fEst, fDft)))
    ensures Held in Present(Slots(held, snr, ip, raw, fEst, fDft)) <==> held
    ensures forall v :: SnrNote(v) in Present(Slots(held, snr, ip, raw, fEst, fDft)) <==> snr == Some(v)
    ensures forall v :: InitNote(v) in Present(Slots(held, snr, ip, raw, fEst, fDft)) <==> v == ip
    ensures forall v :: RawNote(v) in Present(Slots(held, snr, ip, raw, fEst, fDft)) <==> raw == Some(v)
    ensures forall v :: FEstNote(v) in Present(Slots(held, snr, ip, raw, fEst, fDft)) <==> fEst == Some(v)
    ensures forall v :: FDftNote(v) in Present(Slots(held, snr, ip, raw, fEst, fDft)) <==> fDft == Some(v)
  {
    SlotsRanked(held, snr, ip, raw, fEst, fDft);
    SlotNotesLeading(held, snr, ip, raw, fEst, fDft);
    SlotNotesTrailing(held, snr, ip, raw, fEst, fDft);
  }

  /**
   * What a record shows: the smoothed value while it is held, that is while one exists and at
   * most `hold` seconds have passed since it was last updated; nothing otherwise.
   */
  function Shown(lastGood: Option<real>, lastGoodT: real, now: real, hold: real): (bpm: Option<real>)
    ensures bpm.Some? <==> lastGood.Some? && now - lastGoodT <= hold
    ensures bpm.Some? ==> bpm == lastGood
  {
    if lastGood.Some? && now - lastGoodT <= hold then lastGood else None
  }

  /**
   * The unix seconds one emission pass covers: from the cursor `next` up to and including
   * `floor(now)`, or none when `now` has not reached `next`.
   */
  function TickCount(next: int, now: real): (n: nat)
    ensures now >= next as real ==> n == now.Floor - next + 1
    ensures now < next as real ==> n == 0
  {
    if now >= next as real then now.Floor - next + 1 else 0
  }

  /** The records of one catch-up pass: second `next + i` for each `i`, all with the same content. */
  function CatchUp(next: int, now: real, bpm: Option<real>, notes: seq<Note>): (rs: seq<Record>)
    ensures |rs| == TickCount(next, now)
    ensures forall i :: 0 <= i < |rs| ==> rs[i] == Record(next + i, bpm, notes)
  {
    seq(TickCount(next, now), i => Record(next + i, bpm, notes))
  }

  /**
   * A catch-up pass emits the consecutive seconds `next .. floor(now)`, once each and in
   * increasing order; every emitted second has been reached by `now`, and the first second it
   * leaves for the next pass has not.
   */
  lemma {:induction false} CatchUpCoversElapsedSeconds(next: int, now: real, bpm: Option<real>, notes: seq<Note>)
    ensures var rs := CatchUp(next, now, bpm, notes);
      (forall i :: 0 <= i < |rs| ==> rs[i].unixS as real <= now)
      && (forall i, j :: 0 <= i < j < |rs| ==> rs[i].unixS < rs[j].unixS)
      && (next + |rs|) as real > now
      && (rs != [] ==> rs[|rs| - 1].unixS == now.Floor)
  {
    var rs := CatchUp(next, now, bpm, notes);
    forall i | 0 <= i < |rs| ensures rs[i].unixS as real <= now {
      assert rs[i].unixS <= now.Floor;
    }
  }

  /** No frame for a while: a pass at 103.4 with the cursor at 101 emits 101, 102 and 103, identically. */
  lemma CatchUpExample(bpm: Option<real>, notes: seq<Note>)
    ensures CatchUp(101, 103.4, bpm, notes)
      == [Record(101, bpm, notes), Record(102, bpm, notes), Record(103, bpm, notes)]
  {
    assert (103.4).Floor == 103;
  }
}
