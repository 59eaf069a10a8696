/** What the steps of an upload lead to, said by their outcome: when a recording ends and how, what an error
    leaves behind, and what the result of a turn says about its upload. */
module UploadLaws {
  import Bytes
  import HttpChunk
  import opened Upload

  function MainSteps(events: seq<Event>): nat
    decreases |events|
  {
    if events == [] then 0 else (if events[0].MainStep? then 1 else 0) + MainSteps(events[1..])
  }

  // ---- an overflow ----

  predicate AllFlags(sh: Shared) {
    sh.failed && sh.finished && sh.cancel
  }

  /** Between the overflow and the error, which flags are up already. */
  predicate OnOverflowPath(s: State) {
    match s.m.at
    case TickTop => s.m.ring.overflow
    case OverflowFailed => true
    case OverflowFinished => s.sh.failed
    case OverflowCancel => s.sh.failed && s.sh.finished
    case Err0 => AllFlags(s.sh)
    case ErrCancel => AllFlags(s.sh)
    case ErrFailed => AllFlags(s.sh)
    case ErrFinished => AllFlags(s.sh)
    case ErrorState => AllFlags(s.sh)
    case _ => false
  }

  function StepsLeft(at: MainAt): nat {
    match at
    case TickTop => 8
    case OverflowFailed => 7
    case OverflowFinished => 6
    case OverflowCancel => 5
    case Err0 => 4
    case ErrCancel => 3
    case ErrFailed => 2
    case ErrFinished => 1
    case _ => 0
  }

  lemma OverflowStep(s: State, e: Event)
    requires Inv(s) && OnOverflowPath(s) && s.m.at != ErrorState
    ensures var t := Next(s, e);
      && OnOverflowPath(t) && t.m.source == s.m.source
      && if e.MainStep? then StepsLeft(t.m.at) < StepsLeft(s.m.at) else t.m == s.m
  {
    if e.MainStep? {
    } else if e.WorkerStep? {
      WorkerFlags(s.w, s.sh, e);
    }
  }

  /** The worker only ever raises the failed flag, and never cancels or finishes anything. */
  lemma WorkerFlags(w: WorkerTask, sh: Shared, e: Event)
    requires e.WorkerStep?
    ensures var (w', sh') := WorkerNext(w, sh, e); OnlyFails(sh, sh')
  {
    hide WireNext, LoopNext, EndNext;
    if Wires(w.at) {
      WireFlags(w, sh, e);
    } else if InLoop(w.at) {
      LoopFlags(w, sh, e);
    } else {
      EndFlags(w, sh, e);
    }
  }

  predicate OnlyFails(sh: Shared, sh': Shared) {
    && (sh.failed ==> sh'.failed) && sh'.finished == sh.finished && sh'.cancel == sh.cancel
    && (sh'.taskActive ==> sh.taskActive)
  }

  lemma WireFlags(w: WorkerTask, sh: Shared, e: Event)
    requires e.WorkerStep? && Wires(w.at)
    ensures OnlyFails(sh, WireNext(w, sh, e).1)
  {
  }

  lemma LoopFlags(w: WorkerTask, sh: Shared, e: Event)
    requires e.WorkerStep? && !Wires(w.at) && InLoop(w.at)
    ensures OnlyFails(sh, LoopNext(w, sh, e).1)
  {
  }

  lemma EndFlags(w: WorkerTask, sh: Shared, e: Event)
    requires e.WorkerStep? && !Wires(w.at) && !InLoop(w.at)
    ensures OnlyFails(sh, EndNext(w, sh, e).1)
  {
    match w.at
    case NoTask =>
    case Response =>
    case Turn =>
    case _ =>
  }

  lemma {:induction false} OverflowPathEnds(s: State, events: seq<Event>) returns (k: nat)
    requires Inv(s) && OnOverflowPath(s) && MainSteps(events) >= StepsLeft(s.m.at)
    ensures k <= |events| && MainSteps(events[..k]) <= StepsLeft(s.m.at)
    ensures var t := RunFrom(s, events[..k]); t.m.at == ErrorState && AllFlags(t.sh)
    ensures forall j | 0 <= j <= k :: RunFrom(s, events[..j]).m.source == s.m.source
    decreases |events|
  {
    assert Bounded(s.m, s.sh);
    hide Inv;
    if s.m.at == ErrorState {
      k := 0;
    } else {
      var e := events[0];
      OverflowStep(s, e);
      NextKeepsInv(s, e);
      var n := OverflowPathEnds(Next(s, e), events[1..]);
      k := n + 1;
      assert events[..k][1..] == events[1..][..n];
      forall j | 0 <= j <= k
        ensures RunFrom(s, events[..j]).m.source == s.m.source
      {
        if j > 0 {
          assert events[..j][1..] == events[1..][..j - 1];
        }
      }
    }
  }

  /** A tick of a recording whose ring has overflowed leads to ERROR within eight steps of the main loop,
      whatever the worker does between them: the upload is marked failed, finished and cancelled, and no byte
      is captured on the way. */
  lemma OverflowStopsRecording(s: State, events: seq<Event>) returns (k: nat)
    requires Inv(s) && s.m.at.TickTop? && s.m.ring.overflow && MainSteps(events) >= 8
    ensures k <= |events| && MainSteps(events[..k]) <= 8
    ensures var t := RunFrom(s, events[..k]); t.m.at == ErrorState && t.sh.failed && t.sh.finished && t.sh.cancel
    ensures forall j | 0 <= j <= k :: RunFrom(s, events[..j]).m.source == s.m.source
  {
    k := OverflowPathEnds(s, events);
  }

  // ---- any other error ----

  /** The worker has gone and the turn has failed. */
  predicate Dead(sh: Shared) {
    sh.result == Failed && !sh.taskActive
  }

  predicate OnErrorPath(s: State) {
    match s.m.at
    case TickTop => !s.m.ring.overflow && Dead(s.sh)
    case CheckResult => Dead(s.sh)
    case CheckTask => !s.sh.taskActive
    case Err0 => true
    case ErrCancel => true
    case ErrFailed => s.sh.cancel
    case ErrFinished => s.sh.cancel && s.sh.failed
    case ErrorState => !s.sh.taskActive || AllFlags(s.sh)
    case _ => false
  }

  function ErrorStepsLeft(at: MainAt): nat {
    match at
    case TickTop => 6
    case CheckResult => 5
    case CheckTask => 5
    case Err0 => 4
    case ErrCancel => 3
    case ErrFailed => 2
    case ErrFinished => 1
    case _ => 0
  }

  lemma ErrorStep(s: State, e: Event)
    requires Inv(s) && OnErrorPath(s) && s.m.at != ErrorState
    ensures var t := Next(s, e);
      && OnErrorPath(t) && t.m.source == s.m.source
      && if e.MainStep? then ErrorStepsLeft(t.m.at) < ErrorStepsLeft(s.m.at) else t.m == s.m
  {
    if e.MainStep? {
    } else if e.WorkerStep? {
      WorkerFlags(s.w, s.sh, e);
      if !s.sh.taskActive {
        assert s.w.at.NoTask?;
      }
    }
  }

  /** A recording whose worker has gone after a failure, or that ends without a worker, and every error of the
      main loop lead to ERROR within six steps of it; a worker still there is told to stop by every flag. */
  lemma {:induction false} ErrorStopsWorker(s: State, events: seq<Event>) returns (k: nat)
    requires Inv(s) && OnErrorPath(s) && MainSteps(events) >= ErrorStepsLeft(s.m.at)
    ensures k <= |events| && MainSteps(events[..k]) <= ErrorStepsLeft(s.m.at) <= 6
    ensures var t := RunFrom(s, events[..k]); t.m.at == ErrorState && (t.sh.taskActive ==> AllFlags(t.sh))
    ensures forall j | 0 <= j <= k :: RunFrom(s, events[..j]).m.source == s.m.source
    decreases |events|
  {
    assert Bounded(s.m, s.sh);
    hide Inv;
    if s.m.at == ErrorState {
      k := 0;
    } else {
      var e := events[0];
      ErrorStep(s, e);
      NextKeepsInv(s, e);
      var n := ErrorStopsWorker(Next(s, e), events[1..]);
      k := n + 1;
      assert events[..k][1..] == events[1..][..n];
      forall j | 0 <= j <= k
        ensures RunFrom(s, events[..j]).m.source == s.m.source
      {
        if j > 0 {
          assert events[..j][1..] == events[1..][..j - 1];
        }
      }
    }
  }

  // ---- where a recording and a turn go ----

  predicate InRecording(at: MainAt) {
    at.TickTop? || at.CheckResult? || at.Capture? || at.DrainRec? || at.SendRec? || at.Decide? || at.CheckTask?
  }

  /** A recording goes on exactly until one of four things happens, takes every byte there is in a tick, and
      hands the stream everything it has room for before the tick decides. */
  lemma RecordingEndsIff(s: State, e: Event)
    requires Inv(s) && e.MainStep? && InRecording(s.m.at)
    ensures var at, t := s.m.at, Next(s, e);
      && (InRecording(t.m.at) || Fails(t.m.at) || t.m.at == ProcTop)
      && (Fails(t.m.at) <==>
            || (at.TickTop? && s.m.ring.overflow) || (at.CheckResult? && Dead(s.sh))
            || (at.Decide? && e.fault) || (at.CheckTask? && (e.fault || !s.sh.taskActive)))
      && (t.m.at == ProcTop <==> at.CheckTask? && !e.fault && s.sh.taskActive)
      && (t.m.at.CheckTask? <==> at.Decide? && e.finish && !e.fault)
      && (at.Capture? ==> (t.m.at.Capture? <==> e.read != []) && t.m.source == s.m.source + e.read)
      && (t.m.at.Decide? ==>
            t.m.ring.overflow || t.m.ring.stored == [] || |t.sh.stream| == STREAM_CAPACITY || t.sh.failed)
      && (t.m.at == ProcTop ==> t.m.release == s.m.release) && (at.Decide? && t.m.at.CheckTask? ==> t.m.release)
  {
  }

  /** A turn leaves PROCESSING in a step exactly by an unsaved id or a failure, or because its audio is to be
      heard; pressing the button cancels it, and so does an error while the worker is there. */
  lemma ProcessingEndsIff(s: State, e: Event)
    requires Inv(s) && e.MainStep? && InProcessing(s.m.at)
    ensures var t := Next(s, e); var rest, pressed := s.m.at.ProcRest?, s.sh.cancel || e.press;
      && (InProcessing(t.m.at) || Fails(t.m.at) || t.m.at == Playing)
      && (Fails(t.m.at) <==>
            rest && (s.sh.storageFailed || (s.sh.result == Failed && (s.sh.taskActive || !pressed))))
      && (t.m.at == Playing <==>
            rest && !s.sh.storageFailed && s.sh.audioStarted && !pressed && e.finish
            && s.sh.result != Failed && s.sh.result != Cancelled)
      && (t.sh.cancel <==> s.sh.cancel || (rest && (e.press || (Fails(t.m.at) && s.sh.taskActive))))
  {
  }

  // ---- what the result says ----

  /** An answer that is not a failure comes only after the whole recording was sent. */
  predicate Answered(s: State) {
    && (s.sh.result == Ready || s.sh.result == Cancelled ==> s.w.terminated)
    && (s.w.at.Turn? || s.w.at.Response? ==> s.w.terminated)
    && (s.w.at.Recheck? ==> s.w.terminated || s.sh.failed)
    && ((s.w.at.Leave? || s.w.at.NoTask?) && !s.w.terminated ==> s.sh.result == Failed)
  }

  lemma AnsweredStep(s: State, e: Event)
    requires Inv(s) && Answered(s) && !e.StartTurn?
    ensures Answered(Next(s, e))
  {
    if e.MainStep? {
      MainKeepsResult(s.m, s.sh, e);
    } else if Wires(s.w.at) {
    } else if InLoop(s.w.at) {
      LoopEffect(s.w, s.sh, e);
    } else {
    }
  }

  predicate KeepsResult(sh: Shared, sh': Shared) {
    sh'.result == sh.result && (sh.failed ==> sh'.failed)
  }

  lemma MainKeepsResult(m: MainTask, sh: Shared, e: Event)
    requires Bounded(m, sh) && e.MainStep?
    ensures KeepsResult(sh, MainNext(m, sh, e).1)
  {
    hide PipeNext, TickNext, FaultNext, OtherNext;
    if Moves(m.at) {
      PipeKeepsResult(m, sh, e);
    } else if InTick(m.at) {
      TickKeepsResult(m, sh, e);
    } else if Fails(m.at) {
      FaultKeepsResult(m, sh, e);
    }
  }

  lemma PipeKeepsResult(m: MainTask, sh: Shared, e: Event)
    requires Bounded(m, sh) && e.MainStep? && Moves(m.at)
    ensures KeepsResult(sh, PipeNext(m, sh, e).1)
  {
  }

  lemma TickKeepsResult(m: MainTask, sh: Shared, e: Event)
    requires e.MainStep? && InTick(m.at)
    ensures KeepsResult(sh, TickNext(m, sh, e).1)
  {
  }

  lemma FaultKeepsResult(m: MainTask, sh: Shared, e: Event)
    requires e.MainStep? && Fails(m.at)
    ensures KeepsResult(sh, FaultNext(m, sh, e).1)
  {
  }

  lemma {:induction false} AnsweredRun(s: State, events: seq<Event>)
    requires Inv(s) && Answered(s) && SameTurn(events)
    ensures Answered(RunFrom(s, events))
    decreases |events|
  {
    assert Bounded(s.m, s.sh);
    hide Answered, Inv;
    if events != [] {
      NextKeepsInv(s, events[0]);
      AnsweredStep(s, events[0]);
      AnsweredRun(Next(s, events[0]), events[1..]);
    }
  }

  /** A turn is reported ready or cancelled only when its whole recording was sent, and once the worker has gone
      a turn whose recording was not sent whole is reported failed. */
  lemma ResultMeansUploaded(heard: seq<Bytes.byte>, cut: nat, events: seq<Event>)
    requires SameTurn(events)
    ensures Inv(Begin(StartTurn(heard, cut, true)))
    ensures var s := RunFrom(Begin(StartTurn(heard, cut, true)), events);
      && (s.sh.result == Ready || s.sh.result == Cancelled ==> s.w.terminated)
      && (s.w.at.NoTask? && !s.w.terminated ==> s.sh.result == Failed)
  {
    var start := StartTurn(heard, cut, true);
    BeginInv(start);
    AnsweredRun(Begin(start), events);
  }

  // ---- what the body of a turn is ----

  /** Every byte the microphone returned while the main loop was capturing. */
  function Captured(s: State, events: seq<Event>): seq<Bytes.byte>
    requires Inv(s)
    decreases |events|
  {
    if events == [] then []
    else
      NextKeepsInv(s, events[0]);
      var read := if events[0].MainStep? && s.m.at.Capture? then events[0].read else [];
      read + Captured(Next(s, events[0]), events[1..])
  }

  lemma SourceStep(s: State, e: Event)
    requires Inv(s) && !e.StartTurn?
    ensures Next(s, e).m.source == if e.MainStep? && s.m.at.Capture? then s.m.source + e.read else s.m.source
  {
    assert Bounded(s.m, s.sh);
    hide Inv, WorkerNext, PipeNext, Bounded;
    if e.MainStep? && Moves(s.m.at) {
      PipeSource(s.m, s.sh, e);
    }
  }

  lemma PipeSource(m: MainTask, sh: Shared, e: Event)
    requires Bounded(m, sh) && e.MainStep? && Moves(m.at)
    ensures PipeNext(m, sh, e).0.source == if m.at.Capture? then m.source + e.read else m.source
  {
    if m.at.Capture? && e.read == [] {
      assert m.source + e.read == m.source;
    }
  }

  lemma {:induction false} SourceGrows(s: State, events: seq<Event>)
    requires Inv(s) && SameTurn(events)
    ensures RunFrom(s, events).m.source == s.m.source + Captured(s, events)
    decreases |events|
  {
    assert Bounded(s.m, s.sh);
    hide Inv, Next;
    if events != [] {
      NextKeepsInv(s, events[0]);
      SourceStep(s, events[0]);
      SourceGrows(Next(s, events[0]), events[1..]);
    }
  }

  /** In a turn begun after `heard` was heard, a receiver of the socket has a complete body exactly when the
      terminator went out, and then it is the last 9600 bytes heard before and all captured since. */
  lemma BodyIsWhatWasHeard(before: seq<Event>, heard: seq<Bytes.byte>, cut: nat, events: seq<Event>)
    requires SameTurn(events) && Run(before).m.at == Idle && !Run(before).sh.taskActive
    ensures Inv(Begin(StartTurn(heard, cut, true)))
    ensures var start := Begin(StartTurn(heard, cut, true)); var s := RunFrom(start, events);
      && s == Run(before + ([StartTurn(heard, cut, true)] + events))
      && HttpChunk.Decode(s.Socket())
         == if s.w.terminated
            then HttpChunk.Complete(heard[if |heard| > 9600 then |heard| - 9600 else 0..] + Captured(start, events), [])
            else HttpChunk.Incomplete
  {
    var e := StartTurn(heard, cut, true);
    BeginInv(e);
    var start := Begin(e);
    assert start.m.source == heard[if |heard| > 9600 then |heard| - 9600 else 0..];
    SourceGrows(start, events);
    RunsOn(before, [e] + events);
    assert ([e] + events)[1..] == events;
    TerminatorMeansWholeRecording(before + ([e] + events));
  }

  lemma RunOne(s: State, e: Event)
    requires Inv(s)
    ensures Bounded(s.m, s.sh) && RunFrom(s, [e]) == Next(s, e)
  {
    NextKeepsInv(s, e);
    assert [e][1..] == [] && RunFrom(s, [e]) == RunFrom(Next(s, e), []);
  }

  /** A run of all the events is a run of the last ones from where the first ones led. */
  lemma {:induction false} RunsOn(a: seq<Event>, b: seq<Event>)
    ensures Run(a + b) == RunFrom(Run(a), b)
    decreases |b|
  {
    hide Inv, Next;
    if b == [] {
      assert a + b == a;
    } else {
      var n := |b| - 1;
      var all := a + b;
      assert all[..|all| - 1] == a + b[..n];
      RunsOn(a, b[..n]);
      assert b == b[..n] + [b[n]];
      RunFromAppend(Run(a), b[..n], [b[n]]);
      RunOne(RunFrom(Run(a), b[..n]), b[n]);
    }
  }
}
