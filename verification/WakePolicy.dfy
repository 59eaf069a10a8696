/** The wake policy: when a spoken command starts and ends, by a 32-bit millisecond clock that wraps. */
module WakePolicy {
  import opened Clock32

  datatype State = Armed | Cue | Settle | WaitSpeech | Recording | Done | Failed
  datatype Event = Nothing | StartRecord | Finish | Cancel

  const CUE_LIMIT: nat := 8000
  const SETTLE_MS: nat := 150
  const SPEECH_LIMIT: nat := 10000

  datatype Wake = Wake(
    state: State, hold: bool, cueEnd: nat, started: nat, lastSpeech: nat, pause: nat, max: nat)

  datatype Inputs = Inputs(eligible: bool, now: nat, speech: bool, finish: bool)

  datatype Step = Tick(i: Inputs) | CueDone(now: nat, success: bool) | Activate(eligible: bool, now: nat)

  // ---- the policy ----

  function Init(pause: nat, max: nat, manual: bool, holdMode: bool): Wake {
    Wake(Armed, manual && holdMode, 0, 0, 0,
         if pause < 1000 then 1000 else if pause > 10000 then 10000 else pause,
         if max == 0 then 600000 else max)
  }

  function ActivateWake(w: Wake, eligible: bool, now: nat): Wake {
    if !eligible || w.state != Armed then w else w.(state := Cue, started := Clock(now))
  }

  function FinishCue(w: Wake, now: nat, success: bool): Wake {
    if w.state != Cue then w else w.(state := if success then Settle else Failed, cueEnd := Clock(now))
  }

  function TickWake(w: Wake, i: Inputs): (Wake, Event) {
    if w.state == Armed || w.state == Done then (w, Nothing)
    else if w.state == Failed || (i.finish && w.state != Recording) || (!i.eligible && w.state != Recording) then
      (w.(state := Done), Cancel)
    else
      match w.state
      case Cue => if Since(i.now, w.started) >= CUE_LIMIT then (w.(state := Done), Cancel) else (w, Nothing)
      case Settle =>
        if Since(i.now, w.cueEnd) < SETTLE_MS then (w, Nothing)
        else Listen(w.(started := Clock(w.cueEnd + SETTLE_MS), state := WaitSpeech), i)
      case WaitSpeech => Listen(w, i)
      case _ => Record(w, i)
  }

  /** Waiting for the first word. */
  function Listen(w: Wake, i: Inputs): (Wake, Event) {
    if i.finish || Since(i.now, w.started) >= SPEECH_LIMIT then (w.(state := Done), Cancel)
    else if !i.speech then (w, Nothing)
    else (w.(lastSpeech := Clock(i.now), state := Recording), StartRecord)
  }

  function Record(w: Wake, i: Inputs): (Wake, Event) {
    var v := if i.speech then w.(lastSpeech := Clock(i.now)) else w;
    if i.finish || Since(i.now, v.started) >= v.max || (!v.hold && Since(i.now, v.lastSpeech) >= v.pause)
    then (v.(state := Done), Finish)
    else (v, Nothing)
  }

  function Next(w: Wake, s: Step): (Wake, Event) {
    match s
    case Tick(i) => TickWake(w, i)
    case CueDone(now, success) => (FinishCue(w, now, success), Nothing)
    case Activate(eligible, now) => (ActivateWake(w, eligible, now), Nothing)
  }

  function Run(w: Wake, steps: seq<Step>): Wake
    decreases |steps|
  {
    if steps == [] then w else Run(Next(w, steps[0]).0, steps[1..])
  }

  function Events(w: Wake, steps: seq<Step>): seq<Event>
    decreases |steps|
  {
    if steps == [] then [] else [Next(w, steps[0]).1] + Events(Next(w, steps[0]).0, steps[1..])
  }

  // ---- what a tick says ----

  /** The cue is over and has settled for 150 ms, and speech has not been waited for as long as ten seconds. */
  predicate Attentive(w: Wake, now: nat) {
    || (w.state == WaitSpeech && Since(now, w.started) < 10000)
    || (w.state == Settle && Since(now, w.cueEnd) >= 150 && Since(now, Clock(w.cueEnd + 150)) < 10000)
  }

  predicate Starts(w: Wake, i: Inputs) {
    Attentive(w, i.now) && i.speech && i.eligible && !i.finish
  }

  /** The user is done, the recording is as long as it may be, or it is automatic and there was a pause. */
  predicate Finishes(w: Wake, i: Inputs) {
    w.state == Recording &&
    (i.finish || Since(i.now, w.started) >= w.max || (!w.hold && !i.speech && Since(i.now, w.lastSpeech) >= w.pause))
  }

  /** Before the recording: the cue failed or is stalled, nobody spoke in time, or the user or the device
      calls it off. */
  predicate Cancels(w: Wake, i: Inputs) {
    match w.state
    case Failed => true
    case Cue => i.finish || !i.eligible || Since(i.now, w.started) >= 8000
    case Settle =>
      i.finish || !i.eligible || (Since(i.now, w.cueEnd) >= 150 && Since(i.now, Clock(w.cueEnd + 150)) >= 10000)
    case WaitSpeech => i.finish || !i.eligible || Since(i.now, w.started) >= 10000
    case _ => false
  }

  /** Exactly when a tick says what; while it says nothing, the run goes on where it is, and only the end of the
      settling and the last speech are noted. */
  lemma TickMeans(w: Wake, i: Inputs)
    requires w.pause > 0
    ensures var (v, e) := TickWake(w, i);
      && (e == StartRecord <==> Starts(w, i)) && (e == Finish <==> Finishes(w, i)) && (e == Cancel <==> Cancels(w, i))
      && (e == StartRecord ==> v.state == Recording && v.lastSpeech == Clock(i.now))
      && (e == Finish || e == Cancel ==> v.state == Done)
      && (e == Nothing ==>
            && v.state == (if w.state == Settle && Since(i.now, w.cueEnd) >= 150 then WaitSpeech else w.state)
            && v.lastSpeech == (if w.state == Recording && i.speech then Clock(i.now) else w.lastSpeech))
      && v.started == (if w.state == Settle && v.state != Settle && i.eligible && !i.finish
                       then Clock(w.cueEnd + 150) else w.started)
      && v.hold == w.hold && v.cueEnd == w.cueEnd && v.pause == w.pause && v.max == w.max
  {
    JustNow(i.now);
    hide Since, Clock;
  }

  lemma JustNow(now: nat)
    ensures Since(now, Clock(now)) == 0
  {
  }

  // ---- the shape of a run ----

  predicate Quiet(es: seq<Event>) {
    forall i | 0 <= i < |es| :: es[i] == Nothing
  }

  /** Nothing until one event, after which there is only silence; or nothing at all. */
  predicate Until(es: seq<Event>, last: Event) {
    exists i | 0 <= i <= |es| :: Quiet(es[..i]) && (i == |es| || (es[i] == last && Quiet(es[i + 1..])))
  }

  /** Nothing, then either a cancellation, or a start followed by nothing and at most one finish. */
  predicate WellFormedRun(es: seq<Event>) {
    exists i | 0 <= i <= |es| ::
      && Quiet(es[..i])
      && (|| i == |es|
          || (es[i] == Cancel && Quiet(es[i + 1..]))
          || (es[i] == StartRecord && Until(es[i + 1..], Finish)))
  }

  lemma {:induction false} DoneIsQuiet(w: Wake, steps: seq<Step>)
    requires w.state == Done
    ensures Quiet(Events(w, steps)) && Run(w, steps).state == Done
    decreases |steps|
  {
    if steps != [] {
      DoneIsQuiet(Next(w, steps[0]).0, steps[1..]);
    }
  }

  lemma QuietThen(es: seq<Event>, last: Event)
    requires es != [] && es[0] == Nothing && Until(es[1..], last)
    ensures Until(es, last)
  {
    var rest := es[1..];
    var i :| 0 <= i <= |rest| && Quiet(rest[..i]) && (i == |rest| || (rest[i] == last && Quiet(rest[i + 1..])));
    QuietLonger(es, i);
    assert i < |rest| ==> es[i + 2..] == rest[i + 1..];
  }

  lemma QuietLonger(es: seq<Event>, i: nat)
    requires es != [] && es[0] == Nothing && i <= |es| - 1 && Quiet(es[1..][..i])
    ensures Quiet(es[..i + 1])
  {
    var front := es[..i + 1];
    forall k | 0 <= k < |front|
      ensures front[k] == Nothing
    {
      if k > 0 {
        assert es[1..][..i][k - 1] == es[k];
      }
    }
  }

  lemma AtOnce(es: seq<Event>, last: Event)
    requires es != [] && es[0] == last && Quiet(es[1..])
    ensures Until(es, last)
  {
    assert Quiet(es[..0]);
  }

  lemma {:induction false} RecordingEnds(w: Wake, steps: seq<Step>)
    requires w.state == Recording
    ensures Until(Events(w, steps), Finish)
    decreases |steps|
  {
    var es := Events(w, steps);
    if steps == [] {
      assert Quiet(es[..0]);
    } else {
      var v := Next(w, steps[0]).0;
      assert es[1..] == Events(v, steps[1..]);
      if v.state == Done {
        DoneIsQuiet(v, steps[1..]);
        AtOnce(es, Finish);
      } else {
        RecordingEnds(v, steps[1..]);
        QuietThen(es, Finish);
      }
    }
  }

  predicate Early(s: State) {
    s == Cue || s == Settle || s == WaitSpeech || s == Failed
  }

  /** Whatever the inputs and the clock, an activated run emits nothing, then a cancellation or one recording,
      then nothing for ever. */
  lemma {:induction false} RunShape(w: Wake, steps: seq<Step>)
    requires Early(w.state)
    ensures WellFormedRun(Events(w, steps))
    decreases |steps|
  {
    var es := Events(w, steps);
    if steps == [] {
      assert Quiet(es[..0]);
    } else {
      var v := Next(w, steps[0]).0;
      assert es[1..] == Events(v, steps[1..]);
      assert Quiet(es[..0]);
      if v.state == Done {
        DoneIsQuiet(v, steps[1..]);
        assert es[0] == Cancel && Quiet(es[1..]);
      } else if v.state == Recording {
        RecordingEnds(v, steps[1..]);
        assert es[0] == StartRecord && Until(es[1..], Finish);
      } else {
        RunShape(v, steps[1..]);
        NothingFirst(es);
      }
    }
  }

  lemma NothingFirst(es: seq<Event>)
    requires es != [] && es[0] == Nothing && WellFormedRun(es[1..])
    ensures WellFormedRun(es)
  {
    var rest := es[1..];
    var i :| 0 <= i <= |rest| && Quiet(rest[..i])
             && (|| i == |rest|
                 || (rest[i] == Cancel && Quiet(rest[i + 1..]))
                 || (rest[i] == StartRecord && Until(rest[i + 1..], Finish)));
    QuietLonger(es, i);
    assert i < |rest| ==> es[i + 2..] == rest[i + 1..];
  }

  // ---- how long a run can last ----

  /** A tick at a real time, which the clock shows modulo 2^32. */
  datatype Timed = Timed(at: nat, eligible: bool, speech: bool, finish: bool)

  function TimedTick(t: Timed): Step {
    Tick(Inputs(t.eligible, Clock(t.at), t.speech, t.finish))
  }

  function RunTicks(w: Wake, ts: seq<Timed>): Wake {
    if ts == [] then w else Next(RunTicks(w, ts[..|ts| - 1]), TimedTick(ts[|ts| - 1])).0
  }

  /** Ticks in order from `from` on, at most `gap` apart. */
  predicate Spaced(ts: seq<Timed>, from: nat, gap: nat) {
    forall i | 0 <= i < |ts| :: Apart(ts, from, i, gap)
  }

  predicate Apart(ts: seq<Timed>, from: nat, i: nat, gap: nat)
    requires i < |ts|
  {
    var before := if i == 0 then from else ts[i - 1].at;
    before <= ts[i].at <= before + gap
  }

  lemma SpacedFront(ts: seq<Timed>, from: nat, gap: nat, k: nat)
    requires Spaced(ts, from, gap) && k <= |ts|
    ensures Spaced(ts[..k], from, gap)
  {
    forall i | 0 <= i < k
      ensures Apart(ts[..k], from, i, gap)
    {
      assert Apart(ts, from, i, gap);
    }
  }

  /** What a run is waiting for: the end of a cue begun at `start`, or of a command after a cue that ended then. */
  datatype Deadline = CueBegun(start: nat) | CueEnded(start: nat, max: nat)

  function Limit(d: Deadline): nat {
    match d
    case CueBegun(start) => start + CUE_LIMIT
    case CueEnded(start, max) => start + SETTLE_MS + (if max < SPEECH_LIMIT then SPEECH_LIMIT else max)
  }

  /** Where a run can be when its last tick, or its beginning, was at `last`. */
  predicate Under(w: Wake, d: Deadline, last: nat) {
    || w.state == Done
    || (d.CueBegun? && w.state == Cue && w.started == Clock(d.start))
    || (d.CueEnded? && w.max == d.max && w.state == Settle && w.cueEnd == Clock(d.start))
    || (d.CueEnded? && w.max == d.max && (w.state == WaitSpeech || w.state == Recording)
        && w.started == Clock(d.start + SETTLE_MS) && last >= d.start + SETTLE_MS)
  }

  /** A tick before the limit keeps the run under it; one at or after the limit ends the run. */
  lemma TickUnder(w: Wake, d: Deadline, last: nat, t: Timed)
    requires Under(w, d, last) && d.start <= last <= t.at < d.start + WRAP
    ensures var v := Next(w, TimedTick(t)).0; Under(v, d, t.at) && (t.at >= Limit(d) ==> v.state == Done)
  {
    hide Since, Clock;
    SinceIsElapsed(t.at, d.start);
    if d.CueEnded? {
      ClockAdds(d.start, SETTLE_MS);
      if t.at >= d.start + SETTLE_MS {
        SinceIsElapsed(t.at, d.start + SETTLE_MS);
      }
    }
  }

  lemma {:induction false} TicksUnder(w: Wake, d: Deadline, from: nat, gap: nat, ts: seq<Timed>)
    requires Under(w, d, from) && d.start <= from && Spaced(ts, from, gap)
    requires forall i | 0 <= i < |ts| :: ts[i].at < d.start + WRAP
    ensures var last := if ts == [] then from else ts[|ts| - 1].at;
      && from <= last && Under(RunTicks(w, ts), d, last)
      && (ts != [] && last >= Limit(d) ==> RunTicks(w, ts).state == Done)
    decreases |ts|
  {
    if ts != [] {
      var front := ts[..|ts| - 1];
      SpacedFront(ts, from, gap, |ts| - 1);
      TicksUnder(w, d, from, gap, front);
      var last := if front == [] then from else front[|front| - 1].at;
      assert Apart(ts, from, |ts| - 1, gap);
      TickUnder(RunTicks(w, front), d, last, ts[|ts| - 1]);
    }
  }

  /** Some tick comes within a gap of any moment the ticks go past. */
  lemma {:induction false} TickNear(ts: seq<Timed>, from: nat, gap: nat, limit: nat) returns (n: nat)
    requires Spaced(ts, from, gap) && from < limit && ts != [] && ts[|ts| - 1].at >= limit
    ensures n < |ts| && limit <= ts[n].at < limit + gap
    ensures forall i | 0 <= i <= n :: ts[i].at < limit + gap
  {
    n := 0;
    assert Apart(ts, from, 0, gap);
    while ts[n].at < limit
      invariant n < |ts| && forall i | 0 <= i <= n :: ts[i].at < limit + gap
      decreases |ts| - n
    {
      n := n + 1;
      assert Apart(ts, from, n, gap);
    }
  }

  lemma EndsInTime(w: Wake, d: Deadline, from: nat, gap: nat, ts: seq<Timed>) returns (n: nat)
    requires Under(w, d, from) && d.start <= from < Limit(d) && Limit(d) + gap <= d.start + WRAP
    requires Spaced(ts, from, gap) && ts != [] && ts[|ts| - 1].at >= Limit(d)
    ensures n < |ts| && ts[n].at < Limit(d) + gap && RunTicks(w, ts[..n + 1]).state == Done
  {
    n := TickNear(ts, from, gap, Limit(d));
    var front := ts[..n + 1];
    SpacedFront(ts, from, gap, n + 1);
    TicksUnder(w, d, from, gap, front);
  }

  /** A run whose cue never ends is over less than 8000 + gap ms after its activation. */
  lemma StalledCueEnds(w: Wake, start: nat, gap: nat, ts: seq<Timed>) returns (n: nat)
    requires w.state == Armed && CUE_LIMIT + gap <= WRAP
    requires Spaced(ts, start, gap) && ts != [] && ts[|ts| - 1].at >= start + CUE_LIMIT
    ensures n < |ts| && ts[n].at < start + CUE_LIMIT + gap
    ensures RunTicks(ActivateWake(w, true, Clock(start)), ts[..n + 1]).state == Done
  {
    n := EndsInTime(ActivateWake(w, true, Clock(start)), CueBegun(start), start, gap, ts);
  }

  /** A run whose cue has ended is over less than 150 + max(10000, longest recording) + gap ms later. */
  lemma CommandEnds(w: Wake, end: nat, gap: nat, ts: seq<Timed>) returns (n: nat)
    requires w.state == Cue
    requires var limit := Limit(CueEnded(end, w.max));
      limit + gap <= end + WRAP && Spaced(ts, end, gap) && ts != [] && ts[|ts| - 1].at >= limit
    ensures n < |ts| && ts[n].at < Limit(CueEnded(end, w.max)) + gap
    ensures RunTicks(FinishCue(w, Clock(end), true), ts[..n + 1]).state == Done
  {
    n := EndsInTime(FinishCue(w, Clock(end), true), CueEnded(end, w.max), end, gap, ts);
  }

  // ---- silence ----

  /** In hold mode silence never ends a recording: until the button finishes it or its time is up, it goes on. */
  lemma {:induction false} HoldIgnoresSilence(w: Wake, start: nat, ts: seq<Timed>)
    requires w.state == Recording && w.hold && w.started == Clock(start)
    requires w.max < WRAP && forall i | 0 <= i < |ts| :: !ts[i].finish && start <= ts[i].at < start + w.max
    ensures var v := RunTicks(w, ts); v.state == Recording && v.hold && v.started == Clock(start) && v.max == w.max
    decreases |ts|
  {
    if ts != [] {
      var front := ts[..|ts| - 1];
      assert forall i | 0 <= i < |front| :: front[i] == ts[i];
      HoldIgnoresSilence(w, start, front);
      SinceIsElapsed(ts[|ts| - 1].at, start);
    }
  }

  /** Otherwise a recording ends at the first tick a whole pause after the last speech, at the latest. */
  lemma SilenceEnds(w: Wake, spoke: nat, t: Timed)
    requires w.state == Recording && !w.hold && w.lastSpeech == Clock(spoke)
    requires !t.speech && spoke + w.pause <= t.at < spoke + WRAP
    ensures Next(w, TimedTick(t)) == (w.(state := Done), Finish)
  {
    SinceIsElapsed(t.at, spoke);
  }

  // ---- the object ----

  class VoiceWake {
    var state: State
    var hold: bool
    var cueEnd: nat
    var started: nat
    var lastSpeech: nat
    var pause: nat
    var max: nat
    ghost var said: seq<Event>    // every event but Nothing, in order

    ghost function Value(): Wake
      reads this
    {
      Wake(state, hold, cueEnd, started, lastSpeech, pause, max)
    }

    /** What has been said so far is what this state allows: one cancellation, or one recording, and no more. */
    ghost predicate Valid()
      reads this
    {
      && 1000 <= pause <= 10000 && max > 0
      && match state
         case Recording => said == [StartRecord]
         case Done => said == [Cancel] || said == [StartRecord, Finish]
         case _ => said == []
    }

    constructor (pauseMs: nat, maxMs: nat, manual: bool, holdMode: bool)
      ensures Valid() && state == Armed && hold == (manual && holdMode)
      ensures pauseMs < 1000 ==> pause == 1000
      ensures pauseMs > 10000 ==> pause == 10000
      ensures 1000 <= pauseMs <= 10000 ==> pause == pauseMs
      ensures max == if maxMs > 0 then maxMs else 600000
      ensures Value() == Init(pauseMs, maxMs, manual, holdMode)
    {
      state, hold, said := Armed, manual && holdMode, [];
      cueEnd, started, lastSpeech := 0, 0, 0;
      pause := if pauseMs < 1000 then 1000 else if pauseMs > 10000 then 10000 else pauseMs;
      max := if maxMs == 0 then 600000 else maxMs;
    }

    /** A run begins only from the armed state, and never a second time. */
    method Wakeup(eligible: bool, now: nat) returns (ok: bool)
      requires Valid()
      modifies this`state, this`started
      ensures Valid() && (old(state) != Armed ==> !ok)
      ensures if ok then said == [] && state == Cue && started == Clock(now) else Value() == old(Value())
      ensures Value() == ActivateWake(old(Value()), eligible, now) && ok == (eligible && old(state) == Armed)
    {
      if !eligible || state != Armed {
        return false;
      }
      state, started, ok := Cue, Clock(now), true;
    }

    method CueOver(now: nat, success: bool)
      requires Valid()
      modifies this`state, this`cueEnd
      ensures Valid() && (state == Armed <==> old(state) == Armed)
      ensures if old(state) == Cue then state == (if success then Settle else Failed) && cueEnd == Clock(now)
              else Value() == old(Value())
      ensures Value() == FinishCue(old(Value()), now, success)
    {
      if state != Cue {
        return;
      }
      state := if success then Settle else Failed;
      cueEnd := Clock(now);
    }

    /** One tick. The events of a run are a cancellation or one recording, and the state, the clock and the
        inputs say exactly when each comes. */
    method TickOnce(i: Inputs) returns (e: Event)
      requires Valid()
      modifies this`state, this`started, this`lastSpeech, this`said
      ensures Valid() && (state == Armed <==> old(state) == Armed)
      ensures said == if e == Nothing then old(said) else old(said) + [e]
      ensures e == StartRecord <==> Starts(old(Value()), i)
      ensures e == Finish <==> Finishes(old(Value()), i)
      ensures e == Cancel <==> Cancels(old(Value()), i)
      ensures e == Finish ==> old(said) == [StartRecord]
      ensures (Value(), e) == TickWake(old(Value()), i)
    {
      TickMeans(Value(), i);
      hide Since, Clock, Starts, Finishes, Cancels;
      if state == Armed || state == Done {
        return Nothing;
      }
      if state == Failed || (i.finish && state != Recording) || (!i.eligible && state != Recording) {
        state, said := Done, said + [Cancel];
        return Cancel;
      }
      if state == Cue {
        if Since(i.now, started) >= CUE_LIMIT {
          state, said := Done, said + [Cancel];
          return Cancel;
        }
        return Nothing;
      }
      if state == Settle {
        if Since(i.now, cueEnd) < SETTLE_MS {
          return Nothing;
        }
        started, state := Clock(cueEnd + SETTLE_MS), WaitSpeech;
      }
      if state == WaitSpeech {
        if i.finish || Since(i.now, started) >= SPEECH_LIMIT {
          state, said := Done, said + [Cancel];
          return Cancel;
        }
        if !i.speech {
          return Nothing;
        }
        lastSpeech, state, said := Clock(i.now), Recording, said + [StartRecord];
        return StartRecord;
      }
      if i.speech {
        lastSpeech := Clock(i.now);
      }
      if i.finish || Since(i.now, started) >= max || (!hold && Since(i.now, lastSpeech) >= pause) {
        state, said := Done, said + [Finish];
        return Finish;
      }
      e := Nothing;
    }
  }
}
