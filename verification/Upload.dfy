/** The two tasks of a recorded upload and every way their steps can interleave.

    Each step of the main loop or of the worker makes one access to the state they share (the flags and the
    stream buffer), except that the tests of several flags at CheckResult and ProcRest are taken as one step
    each; a run is any sequence of steps in which a step that is not enabled does nothing. */
module Upload {
  import opened Bytes
  import RingBuffer
  import PreRoll
  import opened HttpChunk

  const RING_CAPACITY: nat := 32768
  const STREAM_CAPACITY: nat := 524288
  const MAIN_CHUNK: nat := 256
  const WORKER_CHUNK: nat := 1024

  // ---- the state ----

  datatype Result = Waiting | Ready | Failed | Cancelled

  /** What both tasks touch: the FreeRTOS stream buffer and the volatile flags. */
  datatype Shared = Shared(
    stream: seq<byte>, failed: bool, finished: bool, cancel: bool, taskActive: bool,
    storageFailed: bool, audioStarted: bool, result: Result)

  datatype MainAt =
    // other states of the application
    | Idle | Playing | ErrorState
    // wake START_RECORD: the two runs of the pre-roll
    | PushOldest(oldest: seq<byte>, newest: seq<byte>) | PushNewest(newest: seq<byte>)
    // a tick in RECORDING
    | TickTop | CheckResult | Capture | DrainRec | SendRec(chunk: seq<byte>) | Decide | CheckTask
    // a tick in PROCESSING
    | ProcTop | DrainProc | SendProc(chunk: seq<byte>) | MarkFinished | ProcRest
    // ring overflow, then entering ERROR
    | OverflowFailed | OverflowFinished | OverflowCancel | Err0 | ErrCancel | ErrFailed | ErrFinished

  /** `source` is what the body must carry: the pre-roll, then every byte the microphone returned. */
  datatype MainTask = MainTask(at: MainAt, ring: RingBuffer.Fifo, release: bool, source: seq<byte>)

  datatype WorkerAt =
    | NoTask | Open | CheckFailed | Receive | Send(data: seq<byte>, written: nat) | SendFailed
    | CheckFinished | CheckEmpty | After | Close(sent: nat) | Response | CloseFailed | Recheck
    | FailResult | Turn | Leave

  /** The socket has taken the whole chunks and then a cut one. */
  datatype WorkerTask = WorkerTask(at: WorkerAt, chunks: seq<seq<byte>>, tail: seq<byte>, terminated: bool)

  datatype State = State(m: MainTask, w: WorkerTask, sh: Shared)
  {
    function Socket(): seq<byte> {
      EncodeAll(w.chunks) + w.tail
    }
  }

  datatype Event =
    | StartTurn(heard: seq<byte>, cut: nat, created: bool)  // where the circular pre-roll wraps is arbitrary
    | MainStep(read: seq<byte>, finish: bool, fault: bool, press: bool)
    | WorkerStep(written: nat, ok: bool, outcome: Result, unsaved: bool)

  const START := State(
    MainTask(Idle, RingBuffer.EMPTY, false, []), WorkerTask(NoTask, [], [], false),
    Shared([], false, false, false, false, false, false, Failed))

  // ---- the main loop ----

  predicate Bounded(m: MainTask, sh: Shared) {
    |m.ring.stored| <= RING_CAPACITY && |sh.stream| <= STREAM_CAPACITY
  }

  function PushRing(ring: RingBuffer.Fifo, data: seq<byte>): (r: RingBuffer.Fifo)
    requires |ring.stored| <= RING_CAPACITY
    ensures |r.stored| <= RING_CAPACITY
  {
    RingBuffer.Apply(RING_CAPACITY, ring, RingBuffer.Push(data)).0
  }

  /** The drain loop stops on overflow, on an empty ring and on a full stream buffer. */
  predicate DrainStops(m: MainTask, sh: Shared) {
    m.ring.overflow || m.ring.stored == [] || |sh.stream| >= STREAM_CAPACITY
  }

  /** One pass of the drain loop: pop what the stream buffer has room for. */
  function PopRing(m: MainTask, sh: Shared): (r: (RingBuffer.Fifo, seq<byte>))
    requires Bounded(m, sh)
    ensures |r.0.stored| <= RING_CAPACITY
  {
    RingBuffer.Apply(RING_CAPACITY, m.ring, RingBuffer.Pop(Min(MAIN_CHUNK, STREAM_CAPACITY - |sh.stream|)))
  }

  /** A non-blocking send: what does not fit is lost and fails the upload. */
  function SendStream(sh: Shared, chunk: seq<byte>): Shared
    requires |sh.stream| <= STREAM_CAPACITY
  {
    var n := Min(|chunk|, STREAM_CAPACITY - |sh.stream|);
    sh.(stream := sh.stream + chunk[..n], failed := sh.failed || n < |chunk|)
  }

  /** Moving bytes: pushing into the ring and draining it into the stream. */
  function PipeNext(m: MainTask, sh: Shared, e: Event): (MainTask, Shared)
    requires Bounded(m, sh) && e.MainStep? && Moves(m.at)
  {
    match m.at
    case PushOldest(oldest, newest) => (m.(ring := PushRing(m.ring, oldest), at := PushNewest(newest)), sh)
    case PushNewest(newest) => (m.(ring := PushRing(m.ring, newest), at := TickTop), sh)
    case Capture =>
      if e.read == [] then (m.(at := DrainRec), sh)
      else (m.(ring := PushRing(m.ring, e.read), source := m.source + e.read), sh)
    case DrainRec =>
      if DrainStops(m, sh) then (m.(at := Decide), sh)
      else var (ring, chunk) := PopRing(m, sh); (m.(ring := ring, at := SendRec(chunk)), sh)
    case SendRec(chunk) =>
      var sh' := SendStream(sh, chunk);
      (m.(at := if sh'.failed && !sh.failed then Decide else DrainRec), sh')
    case DrainProc =>
      if DrainStops(m, sh) then (m.(at := MarkFinished), sh)
      else var (ring, chunk) := PopRing(m, sh); (m.(ring := ring, at := SendProc(chunk)), sh)
    case SendProc(chunk) =>
      var sh' := SendStream(sh, chunk);
      (m.(at := if sh'.failed && !sh.failed then MarkFinished else DrainProc), sh')
  }

  predicate Moves(at: MainAt) {
    at.PushOldest? || at.PushNewest? || at.Capture? || at.DrainRec? || at.SendRec? || at.DrainProc? || at.SendProc?
  }

  /** The ticks of RECORDING and PROCESSING between those moves. */
  function TickNext(m: MainTask, sh: Shared, e: Event): (MainTask, Shared)
    requires e.MainStep? && InTick(m.at)
  {
    match m.at
    case TickTop => (m.(at := if m.ring.overflow then OverflowFailed else CheckResult), sh)
    case CheckResult => (m.(at := if sh.result == Failed && !sh.taskActive then Err0 else Capture), sh)
    case Decide =>
      if e.fault then (m.(at := Err0), sh)
      else if e.finish then (m.(release := true, at := CheckTask), sh)
      else (m.(at := TickTop), sh)
    case CheckTask => (m.(at := if e.fault || !sh.taskActive then Err0 else ProcTop), sh)
    case ProcTop => (m.(at := if m.release && !sh.finished then DrainProc else ProcRest), sh)
    case MarkFinished => (m.(at := ProcRest), sh.(finished := sh.finished || m.ring.stored == []))
    case ProcRest =>
      var now := sh.(cancel := sh.cancel || e.press);
      // The state machine refuses PROCESSING -> IDLE, so the branches that ask for it stay here.
      if now.cancel && !now.taskActive && !now.storageFailed then (m.(at := ProcTop), now)
      else if now.storageFailed || now.result == Failed then
        (m.(at := Err0), now.(cancel := now.cancel || now.taskActive))
      else if now.result == Cancelled then (m.(at := ProcTop), now)
      else (m.(at := if now.audioStarted && !now.cancel && e.finish then Playing else ProcTop), now)
  }

  predicate InTick(at: MainAt) {
    at.TickTop? || at.CheckResult? || at.Decide? || at.CheckTask? || at.ProcTop? || at.MarkFinished? || at.ProcRest?
  }

  /** Failing the upload marks it failed before it marks it finished. */
  function FaultNext(m: MainTask, sh: Shared, e: Event): (MainTask, Shared)
    requires e.MainStep? && Fails(m.at)
  {
    match m.at
    case OverflowFailed => (m.(at := OverflowFinished), sh.(failed := true))
    case OverflowFinished => (m.(at := OverflowCancel), sh.(finished := true))
    case OverflowCancel => (m.(at := Err0), sh.(cancel := true))
    case Err0 => (m.(at := if sh.taskActive then ErrCancel else ErrorState), sh)
    case ErrCancel => (m.(at := ErrFailed), sh.(cancel := true))
    case ErrFailed => (m.(at := ErrFinished), sh.(failed := true))
    case ErrFinished => (m.(at := ErrorState), sh.(finished := true))
  }

  predicate Fails(at: MainAt) {
    at.OverflowFailed? || at.OverflowFinished? || at.OverflowCancel?
    || at.Err0? || at.ErrCancel? || at.ErrFailed? || at.ErrFinished?
  }

  /** States that take no part in the upload. */
  function OtherNext(m: MainTask, sh: Shared, e: Event): MainTask
    requires e.MainStep?
  {
    match m.at
    case Playing => m.(at := if e.fault then Err0 else if e.press then Idle else Playing)
    case ErrorState => if e.press && !sh.taskActive then m.(at := Idle) else m
    case _ => m
  }

  function MainNext(m: MainTask, sh: Shared, e: Event): (MainTask, Shared)
    requires Bounded(m, sh) && e.MainStep?
  {
    if Moves(m.at) then PipeNext(m, sh, e)
    else if InTick(m.at) then TickNext(m, sh, e)
    else if Fails(m.at) then FaultNext(m, sh, e)
    else (OtherNext(m, sh, e), sh)
  }

  // ---- the worker ----

  /** How much of `pending` one socket write takes: at least one byte, at most all. */
  function Taken(pending: nat, e: Event): (n: nat)
    requires pending > 0 && e.WorkerStep?
    ensures 0 < n <= pending
  {
    Min(e.written + 1, pending)
  }

  /** Taking from the stream and writing to the socket. */
  function WireNext(w: WorkerTask, sh: Shared, e: Event): (WorkerTask, Shared)
    requires e.WorkerStep? && Wires(w.at)
  {
    match w.at
    case Receive =>
      var n := Min(WORKER_CHUNK, |sh.stream|);
      if n == 0 then (w.(at := CheckFinished), sh)
      else (w.(at := Send(sh.stream[..n], 0)), sh.(stream := sh.stream[n..]))
    case Send(data, written) =>
      var frame := EncodeChunk(data);
      if !e.ok || written >= |frame| then (w.(at := SendFailed), sh)
      else
        var now := written + Taken(|frame| - written, e);
        if now == |frame| then (WorkerTask(CheckFinished, w.chunks + [data], [], w.terminated), sh)
        else (w.(tail := frame[..now], at := Send(data, now)), sh)
    case Close(sent) =>
      if !e.ok || sent >= 5 then (w.(at := CloseFailed), sh)
      else
        var now := sent + Taken(5 - sent, e);
        if now == 5 then (w.(tail := LAST_CHUNK, terminated := true, at := Response), sh)
        else (w.(tail := LAST_CHUNK[..now], at := Close(now)), sh)
  }

  predicate Wires(at: WorkerAt) {
    at.Receive? || at.Send? || at.Close?
  }

  /** The upload loop's tests of the flags. */
  function LoopNext(w: WorkerTask, sh: Shared, e: Event): (WorkerTask, Shared)
    requires e.WorkerStep? && !Wires(w.at) && InLoop(w.at)
  {
    match w.at
    case Open => if e.ok then (w.(at := CheckFailed), sh) else (w.(at := FailResult), sh.(failed := true))
    case CheckFailed => (w.(at := if sh.failed then After else Receive), sh)
    case SendFailed => (w.(at := After), sh.(failed := true))
    case CheckFinished => (w.(at := if sh.finished then CheckEmpty else CheckFailed), sh)
    case CheckEmpty => (w.(at := if sh.stream == [] then After else CheckFailed), sh)
    case After => (w.(at := if sh.failed then Recheck else Close(0)), sh)
  }

  predicate InLoop(at: WorkerAt) {
    at.Open? || at.CheckFailed? || at.Receive? || at.Send? || at.SendFailed? || at.CheckFinished? || at.CheckEmpty?
    || at.After?
  }

  /** The server's answer, the turn that follows, and the end of the task. */
  function EndNext(w: WorkerTask, sh: Shared, e: Event): (WorkerTask, Shared)
    requires e.WorkerStep? && !Wires(w.at) && !InLoop(w.at)
  {
    match w.at
    case NoTask => (w, sh)
    case Response =>
      if !e.ok then (w.(at := CloseFailed), sh)
      else (w.(at := Recheck), sh.(storageFailed := sh.storageFailed || e.unsaved))
    case CloseFailed => (w.(at := Recheck), sh.(failed := true))
    case Recheck => (w.(at := if sh.failed then FailResult else Turn), sh)
    case FailResult => (w.(at := Leave), sh.(result := Failed))
    case Turn =>
      // Saving or clearing the turn's ids may fail at any time.
      if e.unsaved then (w, sh.(storageFailed := true))
      else if e.ok then (w, sh.(audioStarted := true))
      else if e.outcome == Waiting then (w, sh)
      else (w.(at := Leave), sh.(result := e.outcome))
    case Leave => (w.(at := NoTask), sh.(taskActive := false))
  }

  function WorkerNext(w: WorkerTask, sh: Shared, e: Event): (WorkerTask, Shared)
    requires e.WorkerStep?
  {
    if Wires(w.at) then WireNext(w, sh, e) else if InLoop(w.at) then LoopNext(w, sh, e) else EndNext(w, sh, e)
  }

  // ---- runs ----

  /** A new recording resets the buffers and flags and starts the worker; without a worker it is an error. */
  function Begin(e: Event): State
    requires e.StartTurn?
  {
    if !e.created then
      State(MainTask(Err0, RingBuffer.EMPTY, false, []), WorkerTask(NoTask, [], [], false),
            Shared([], false, false, false, false, false, false, Waiting))
    else
    var kept := PreRoll.LastN(e.heard, PreRoll.PREROLL_BYTES);
    var cut := Min(e.cut, |kept|);
    State(MainTask(PushOldest(kept[..cut], kept[cut..]), RingBuffer.EMPTY, false, kept),
          WorkerTask(Open, [], [], false),
          Shared([], false, false, false, true, false, false, Waiting))
  }

  function Next(s: State, e: Event): State
    requires Bounded(s.m, s.sh)
  {
    match e
    case StartTurn(_, _, _) => if s.m.at == Idle && !s.sh.taskActive then Begin(e) else s
    case MainStep(_, _, _, _) => var (m, sh) := MainNext(s.m, s.sh, e); State(m, s.w, sh)
    case WorkerStep(_, _, _, _) => var (w, sh) := WorkerNext(s.w, s.sh, e); State(s.m, w, sh)
  }

  // ---- the invariant ----

  /** Bytes in the main loop's hands: popped but not sent, or pre-roll not yet pushed. */
  function Held(at: MainAt): seq<byte> {
    match at
    case SendRec(chunk) => chunk
    case SendProc(chunk) => chunk
    case _ => []
  }

  function ToPush(at: MainAt): seq<byte> {
    match at
    case PushOldest(oldest, newest) => oldest + newest
    case PushNewest(newest) => newest
    case _ => []
  }

  function Sending(at: WorkerAt): seq<byte> {
    match at
    case Send(data, _) => data
    case _ => []
  }

  /** What has left the stream, what is in it, and what is still on the main loop's side. */
  function Received(w: WorkerTask): seq<byte> {
    Flatten(w.chunks) + Sending(w.at)
  }

  function Upstream(m: MainTask): seq<byte> {
    Held(m.at) + m.ring.stored + ToPush(m.at)
  }

  ghost predicate Conserved(s: State) {
    Received(s.w) + s.sh.stream + Upstream(s.m) == s.m.source
  }

  /** The main loop will neither capture nor drain again in this turn. */
  predicate Quiet(at: MainAt) {
    at.Idle? || at.Playing? || at.ErrorState? || at.ProcTop? || at.ProcRest?
    || at.Err0? || at.ErrCancel? || at.ErrFailed? || at.ErrFinished?
  }

  predicate MarkedFailed(at: MainAt) {
    at.OverflowFinished? || at.OverflowCancel? || at.ErrFinished?
  }

  predicate Drained(m: MainTask, sh: Shared) {
    sh.finished && Quiet(m.at) && sh.stream == [] && m.ring == RingBuffer.EMPTY
  }

  ghost predicate MainInv(m: MainTask, sh: Shared) {
    && Bounded(m, sh)
    && (m.ring.overflow ==> |m.ring.stored| == RING_CAPACITY)
    && (m.at.PushOldest? ==> m.ring == RingBuffer.EMPTY)
    && (ToPush(m.at) != [] ==> !m.ring.overflow && |m.ring.stored| + |ToPush(m.at)| <= PreRoll.PREROLL_BYTES)
    && (Held(m.at) != [] ==> !m.ring.overflow && |sh.stream| + |Held(m.at)| <= STREAM_CAPACITY)
    && (!Quiet(m.at) && !m.at.OverflowCancel? ==> !sh.finished)
    && (MarkedFailed(m.at) ==> sh.failed)
    && (sh.finished && !sh.failed ==> m.ring == RingBuffer.EMPTY && Quiet(m.at))
  }

  lemma PipeKeepsMain(m: MainTask, sh: Shared, e: Event)
    requires MainInv(m, sh) && e.MainStep? && Moves(m.at)
    ensures var (m', sh') := PipeNext(m, sh, e); MainInv(m', sh')
  {
  }

  lemma TickKeepsMain(m: MainTask, sh: Shared, e: Event)
    requires MainInv(m, sh) && e.MainStep? && InTick(m.at)
    ensures var (m', sh') := TickNext(m, sh, e); MainInv(m', sh')
  {
  }

  lemma FaultKeepsMain(m: MainTask, sh: Shared, e: Event)
    requires MainInv(m, sh) && e.MainStep? && Fails(m.at)
    ensures var (m', sh') := FaultNext(m, sh, e); MainInv(m', sh')
  {
  }

  // ---- what the worker may rely on while the main loop runs ----

  /** Flags only go up, the worker stays the worker, and no bytes appear except those just read. */
  ghost predicate MainEffect(m: MainTask, sh: Shared, m': MainTask, sh': Shared) {
    && (sh.failed ==> sh'.failed) && (sh.finished ==> sh'.finished) && sh'.taskActive == sh.taskActive
    && (m.ring.overflow ==> m'.ring.overflow)
    && (Drained(m, sh) ==> Drained(m', sh') && m'.source == m.source)
    && (!m'.ring.overflow ==> exists read: seq<byte> ::
          sh'.stream + Upstream(m') == sh.stream + Upstream(m) + read && m'.source == m.source + read)
  }

  lemma Moved(m: MainTask, sh: Shared, m': MainTask, sh': Shared, read: seq<byte>)
    requires sh'.stream + Upstream(m') == sh.stream + Upstream(m) + read && m'.source == m.source + read
    requires (sh.failed ==> sh'.failed) && sh.finished == sh'.finished && sh'.taskActive == sh.taskActive
    requires (m.ring.overflow ==> m'.ring.overflow) && !Quiet(m.at)
    ensures MainEffect(m, sh, m', sh')
  {
  }

  lemma PushEffect(m: MainTask, sh: Shared, e: Event)
    requires MainInv(m, sh) && e.MainStep? && (m.at.PushOldest? || m.at.PushNewest? || m.at.Capture?)
    ensures var (m', sh') := PipeNext(m, sh, e); MainEffect(m, sh, m', sh')
  {
    var (m', sh') := PipeNext(m, sh, e);
    if !m'.ring.overflow {
      var data := if m.at.PushOldest? then m.at.oldest else if m.at.PushNewest? then m.at.newest else e.read;
      var read: seq<byte> := if m.at.Capture? then e.read else [];
      assert m'.ring.stored == m.ring.stored + data by {
        assert data[..|data|] == data;
      }
      assert ToPush(m.at) + read == data + ToPush(m'.at);
      Reassociate(sh.stream, m.ring.stored, data, ToPush(m.at), ToPush(m'.at), read);
      Moved(m, sh, m', sh', read);
    }
  }

  lemma Reassociate(front: seq<byte>, stored: seq<byte>, data: seq<byte>, before: seq<byte>, after: seq<byte>,
                    read: seq<byte>)
    requires before + read == data + after
    ensures front + ([] + (stored + data) + after) == front + ([] + stored + before) + read
  {
    assert [] + (stored + data) + after == stored + (data + after);
    assert [] + stored + before == stored + before;
    assert front + (stored + (before + read)) == front + (stored + before) + read;
  }

  lemma TakeFront(front: seq<byte>, s: seq<byte>, n: nat)
    requires n <= |s|
    ensures front + s[..n] + s[n..] == front + [] + s
  {
    assert s[..n] + s[n..] == s;
  }

  /** One pass of a drain moves bytes from the ring into the main loop's hands at most. */
  lemma DrainMoves(m: MainTask, sh: Shared, e: Event)
    requires Bounded(m, sh) && e.MainStep? && (m.at.DrainRec? || m.at.DrainProc?)
    ensures var (m', sh') := PipeNext(m, sh, e);
      && sh' == sh && m'.source == m.source && m'.ring.overflow == m.ring.overflow
      && Held(m'.at) + m'.ring.stored == m.ring.stored && ToPush(m'.at) == []
  {
    if !DrainStops(m, sh) {
      var (ring, chunk) := PopRing(m, sh);
      assert m.ring.stored == chunk + ring.stored;
    }
  }

  lemma DrainEffect(m: MainTask, sh: Shared, e: Event)
    requires MainInv(m, sh) && e.MainStep? && (m.at.DrainRec? || m.at.DrainProc?)
    ensures var (m', sh') := PipeNext(m, sh, e); MainEffect(m, sh, m', sh')
  {
    assert Bounded(m, sh);
    hide MainEffect, MainInv, PipeNext, Bounded;
    var (m', sh') := PipeNext(m, sh, e);
    DrainMoves(m, sh, e);
    assert Upstream(m') == m.ring.stored + [] == Upstream(m);
    Nothing(sh.stream + Upstream(m));
    Nothing(m.source);
    Moved(m, sh, m', sh', []);
  }

  lemma Nothing(s: seq<byte>)
    ensures s + [] == s
  {
  }

  lemma SendEffect(m: MainTask, sh: Shared, e: Event)
    requires MainInv(m, sh) && e.MainStep? && (m.at.SendRec? || m.at.SendProc?)
    ensures var (m', sh') := PipeNext(m, sh, e); MainEffect(m, sh, m', sh') && sh'.failed == sh.failed
  {
    hide MainEffect;
    var (m', sh') := PipeNext(m, sh, e);
    var chunk := m.at.chunk;
    assert chunk[..|chunk|] == chunk;
    assert sh'.stream == sh.stream + chunk;
    assert sh'.stream + Upstream(m') == sh.stream + Upstream(m) + [] && m'.source == m.source + [];
    Moved(m, sh, m', sh', []);
  }

  lemma TickEffect(m: MainTask, sh: Shared, e: Event)
    requires MainInv(m, sh) && e.MainStep? && InTick(m.at)
    ensures var (m', sh') := TickNext(m, sh, e); MainEffect(m, sh, m', sh')
  {
    var (m', sh') := TickNext(m, sh, e);
    StillEffect(m, sh, m', sh');
  }

  lemma FaultEffect(m: MainTask, sh: Shared, e: Event)
    requires MainInv(m, sh) && e.MainStep? && Fails(m.at)
    ensures var (m', sh') := FaultNext(m, sh, e); MainEffect(m, sh, m', sh')
  {
    var (m', sh') := FaultNext(m, sh, e);
    FaultFlags(m, sh, e);
    StillEffect(m, sh, m', sh');
  }

  lemma FaultFlags(m: MainTask, sh: Shared, e: Event)
    requires e.MainStep? && Fails(m.at)
    ensures var (m', sh') := FaultNext(m, sh, e);
      && m'.ring == m.ring && m'.source == m.source && sh'.stream == sh.stream
      && Held(m'.at) == ToPush(m'.at) == [] && (Quiet(m.at) ==> Quiet(m'.at))
      && (sh.failed ==> sh'.failed) && (sh.finished ==> sh'.finished) && sh'.taskActive == sh.taskActive
  {
  }

  lemma StillEffect(m: MainTask, sh: Shared, m': MainTask, sh': Shared)
    requires m'.ring == m.ring && m'.source == m.source && sh'.stream == sh.stream
    requires Held(m'.at) == Held(m.at) && ToPush(m'.at) == ToPush(m.at)
    requires (sh.failed ==> sh'.failed) && (sh.finished ==> sh'.finished) && sh'.taskActive == sh.taskActive
    requires sh.finished && Quiet(m.at) ==> Quiet(m'.at)
    ensures MainEffect(m, sh, m', sh')
  {
    assert sh'.stream + Upstream(m') == sh.stream + Upstream(m) + [] && m'.source == m.source + [];
  }

  lemma MainStepEffect(m: MainTask, sh: Shared, e: Event)
    requires MainInv(m, sh) && e.MainStep?
    ensures var (m', sh') := MainNext(m, sh, e); MainInv(m', sh') && MainEffect(m, sh, m', sh')
  {
    if m.at.DrainRec? || m.at.DrainProc? {
      PipeKeepsMain(m, sh, e);
      DrainEffect(m, sh, e);
    } else if m.at.SendRec? || m.at.SendProc? {
      PipeKeepsMain(m, sh, e);
      SendEffect(m, sh, e);
    } else if Moves(m.at) {
      PipeKeepsMain(m, sh, e);
      PushEffect(m, sh, e);
    } else {
      if InTick(m.at) {
        TickKeepsMain(m, sh, e);
        TickEffect(m, sh, e);
      } else if Fails(m.at) {
        FaultKeepsMain(m, sh, e);
        FaultEffect(m, sh, e);
      } else {
        StillEffect(m, sh, OtherNext(m, sh, e), sh);
      }
    }
  }

  // ---- the worker's invariant ----

  ghost predicate CutOf(tail: seq<byte>, whole: seq<byte>) {
    |tail| < |whole| && tail == whole[..|tail|]
  }

  ghost predicate CutOfSomeChunk(tail: seq<byte>) {
    exists data: seq<byte> :: data != [] && CutOf(tail, EncodeChunk(data))
  }

  /** Still taking from the stream. */
  predicate Uploading(at: WorkerAt) {
    at.Open? || at.CheckFailed? || at.Receive? || at.Send? || at.CheckFinished? || at.CheckEmpty?
  }

  /** Whole chunks, then nothing, a cut chunk, a cut terminator, or the terminator. */
  ghost predicate SocketInv(w: WorkerTask) {
    && NoEmptyChunk(w.chunks)
    && (if w.terminated then w.tail == LAST_CHUNK
        else w.tail == [] || CutOf(w.tail, LAST_CHUNK) || CutOfSomeChunk(w.tail))
    && (Uploading(w.at) || w.at.SendFailed? || w.at.After? || w.at.Close? ==> !w.terminated)
    && (Uploading(w.at) && !w.at.Send? ==> w.tail == [])
    && (w.at.Response? ==> w.terminated)
    && (w.at.Send? ==> w.at.data != [] && CutOf(w.tail, EncodeChunk(w.at.data)) && w.at.written == |w.tail|)
    && (w.at.Close? ==> CutOf(w.tail, LAST_CHUNK) && w.at.sent == |w.tail|)
  }

  /** What each worker step has learnt from the flags, and what that says about the bytes. */
  ghost predicate FlagInv(s: State) {
    && (s.sh.taskActive <==> !s.w.at.NoTask?)
    && (s.w.at.CheckEmpty? ==> s.sh.finished)
    && (s.w.at.After? ==> s.sh.failed || (Drained(s.m, s.sh) && Conserved(s) && s.w.tail == []))
    && (s.w.at.Close? ==> Drained(s.m, s.sh) && Conserved(s))
    && (s.w.terminated ==> Drained(s.m, s.sh) && Flatten(s.w.chunks) == s.m.source)
    && (Uploading(s.w.at) && !s.m.ring.overflow ==> Conserved(s))
  }

  ghost predicate Inv(s: State) {
    MainInv(s.m, s.sh) && SocketInv(s.w) && FlagInv(s)
  }

  lemma BeginInv(e: Event)
    requires e.StartTurn?
    ensures Inv(Begin(e))
  {
    if !e.created {
      return;
    }
    var kept := PreRoll.LastN(e.heard, PreRoll.PREROLL_BYTES);
    var cut := Min(e.cut, |kept|);
    var s := Begin(e);
    assert ToPush(s.m.at) == kept[..cut] + kept[cut..] == kept;
    assert Received(s.w) == [] && Upstream(s.m) == kept;
    assert Received(s.w) + s.sh.stream + Upstream(s.m) == kept;
  }

  lemma MainConserves(s: State, m': MainTask, sh': Shared)
    requires Conserved(s) && !m'.ring.overflow && MainEffect(s.m, s.sh, m', sh')
    ensures Conserved(State(m', s.w, sh'))
  {
    var read: seq<byte> :|
      sh'.stream + Upstream(m') == s.sh.stream + Upstream(s.m) + read && m'.source == s.m.source + read;
    calc {
      Received(s.w) + sh'.stream + Upstream(m');
      Received(s.w) + (sh'.stream + Upstream(m'));
      Received(s.w) + (s.sh.stream + Upstream(s.m) + read);
      Received(s.w) + s.sh.stream + Upstream(s.m) + read;
    }
  }

  lemma {:induction false} MainKeepsInv(s: State, e: Event)
    requires Inv(s) && e.MainStep?
    ensures Inv(Next(s, e))
  {
    var (m', sh') := MainNext(s.m, s.sh, e);
    MainStepEffect(s.m, s.sh, e);
    if !m'.ring.overflow && Conserved(s) {
      MainConserves(s, m', sh');
    }
  }

  lemma WireKeepsSocket(w: WorkerTask, sh: Shared, e: Event)
    requires SocketInv(w) && e.WorkerStep? && Wires(w.at)
    ensures SocketInv(WireNext(w, sh, e).0)
  {
    var w' := WireNext(w, sh, e).0;
    if w'.at.Send? && w.at.Receive? {
      assert CutOf([], EncodeChunk(w'.at.data));
    } else if w'.at.Send? {
      assert CutOf(w'.tail, EncodeChunk(w'.at.data));
    }
  }

  lemma {:induction false} WireConserves(w: WorkerTask, sh: Shared, e: Event)
    requires SocketInv(w) && e.WorkerStep? && Wires(w.at) && !WireNext(w, sh, e).0.at.SendFailed?
    ensures var (w', sh') := WireNext(w, sh, e); Received(w') + sh'.stream == Received(w) + sh.stream
  {
    if w.at.Receive? {
      TakeFront(Flatten(w.chunks), sh.stream, Min(WORKER_CHUNK, |sh.stream|));
    } else if w.at.Send? {
      SendConserves(w, sh, e);
    }
  }

  lemma SendConserves(w: WorkerTask, sh: Shared, e: Event)
    requires e.WorkerStep? && w.at.Send? && !WireNext(w, sh, e).0.at.SendFailed?
    ensures var (w', sh') := WireNext(w, sh, e); sh' == sh && Received(w') == Received(w)
  {
    FlattenSnoc(w.chunks, w.at.data);
  }

  lemma FlattenSnoc(chunks: seq<seq<byte>>, data: seq<byte>)
    ensures Flatten(chunks + [data]) == Flatten(chunks) + data
  {
    assert (chunks + [data])[..|chunks|] == chunks;
  }

  lemma {:induction false} WireKeepsInv(s: State, e: Event)
    requires Inv(s) && e.WorkerStep? && Wires(s.w.at)
    ensures Inv(Next(s, e))
  {
    var (w', sh') := WireNext(s.w, s.sh, e);
    WireKeepsSocket(s.w, s.sh, e);
    if !w'.at.SendFailed? {
      WireConserves(s.w, s.sh, e);
    }
    if w'.terminated {
      assert Received(w') == Flatten(w'.chunks);
    }
  }

  ghost predicate ControlEffect(w: WorkerTask, sh: Shared, w': WorkerTask, sh': Shared) {
    && w'.chunks == w.chunks && w'.tail == w.tail && w'.terminated == w.terminated
    && Sending(w'.at) == Sending(w.at) && (Uploading(w'.at) ==> Uploading(w.at))
    && sh'.stream == sh.stream && sh'.finished == sh.finished && (sh.failed ==> sh'.failed)
    && (w'.at.After? ==> sh'.failed || (w.at.CheckEmpty? && sh.stream == []))
    && (w'.at.Close? ==> w'.at.sent == 0 && w.at.After? && !sh.failed)
    && (w'.at.CheckEmpty? ==> sh.finished)
    && !w'.at.Send? && !w'.at.SendFailed? && (w'.at.Response? ==> w.at.Response?)
    && (w'.at.NoTask? <==> w.at.NoTask? || w.at.Leave?)
    && sh'.taskActive == (sh.taskActive && !w.at.Leave?)
  }

  lemma LoopEffect(w: WorkerTask, sh: Shared, e: Event)
    requires e.WorkerStep? && !Wires(w.at) && InLoop(w.at)
    ensures var (w', sh') := LoopNext(w, sh, e); ControlEffect(w, sh, w', sh')
  {
  }

  lemma {:induction false} EndEffect(w: WorkerTask, sh: Shared, e: Event)
    requires e.WorkerStep? && !Wires(w.at) && !InLoop(w.at)
    ensures var (w', sh') := EndNext(w, sh, e); ControlEffect(w, sh, w', sh')
  {
    EndWorker(w, sh, e);
    EndShared(w, sh, e);
  }

  lemma EndWorker(w: WorkerTask, sh: Shared, e: Event)
    requires e.WorkerStep? && !Wires(w.at) && !InLoop(w.at)
    ensures var w' := EndNext(w, sh, e).0;
      && w'.chunks == w.chunks && w'.tail == w.tail && w'.terminated == w.terminated
      && !Wires(w'.at) && !InLoop(w'.at) && (w'.at.Response? ==> w.at.Response?)
      && (w'.at.NoTask? <==> w.at.NoTask? || w.at.Leave?)
  {
  }

  lemma {:induction false} EndShared(w: WorkerTask, sh: Shared, e: Event)
    requires e.WorkerStep? && !Wires(w.at) && !InLoop(w.at)
    ensures var sh' := EndNext(w, sh, e).1;
      && sh'.stream == sh.stream && sh'.finished == sh.finished && (sh.failed ==> sh'.failed)
      && sh'.taskActive == (sh.taskActive && !w.at.Leave?)
  {
    match w.at
    case NoTask =>
    case Response =>
    case Turn =>
    case _ =>
  }

  lemma {:induction false} ControlKeepsInv(s: State, e: Event)
    requires Inv(s) && e.WorkerStep? && !Wires(s.w.at)
    ensures Inv(Next(s, e))
  {
    var (w', sh') := WorkerNext(s.w, s.sh, e);
    if InLoop(s.w.at) {
      LoopEffect(s.w, s.sh, e);
    } else {
      EndEffect(s.w, s.sh, e);
    }
    ControlKeepsMain(s.m, s.sh, sh');
    assert Conserved(Next(s, e)) == Conserved(s);
    assert Drained(s.m, sh') == Drained(s.m, s.sh);
    if w'.at.Close? {
      assert CutOf([], LAST_CHUNK);
    }
  }

  lemma ControlKeepsMain(m: MainTask, sh: Shared, sh': Shared)
    requires MainInv(m, sh)
    requires sh'.stream == sh.stream && sh'.finished == sh.finished && (sh.failed ==> sh'.failed)
    ensures MainInv(m, sh')
  {
  }

  lemma {:induction false} NextKeepsInv(s: State, e: Event)
    requires Inv(s)
    ensures Inv(Next(s, e))
  {
    match e
    case StartTurn(_, _, _) => BeginInv(e);
    case MainStep(_, _, _, _) => MainKeepsInv(s, e);
    case WorkerStep(_, _, _, _) =>
      if Wires(s.w.at) {
        WireKeepsInv(s, e);
      } else {
        ControlKeepsInv(s, e);
      }
  }

  // ---- main results ----

  function Run(events: seq<Event>): (s: State)
    ensures Inv(s)
  {
    if events == [] then START
    else
      var s := Run(events[..|events| - 1]);
      var e := events[|events| - 1];
      NextKeepsInv(s, e);
      Next(s, e)
  }

  /** In every interleaving a receiver of the socket has a complete body exactly when the terminator
      went out, and then the body is the kept pre-roll followed by everything the microphone returned. */
  lemma {:induction false} TerminatorMeansWholeRecording(events: seq<Event>)
    ensures var s := Run(events);
      Decode(s.Socket()) == if s.w.terminated then Complete(s.m.source, []) else Incomplete
  {
    var s := Run(events);
    if s.w.terminated {
      ClosedBodyDecodes(s.w.chunks);
    } else if CutOf(s.w.tail, LAST_CHUNK) {
      OpenBodyIncomplete(s.w.chunks, LAST_CHUNK, |s.w.tail|);
    } else {
      var data: seq<byte> :| data != [] && CutOf(s.w.tail, EncodeChunk(data));
      OpenBodyIncomplete(s.w.chunks, EncodeChunk(data), |s.w.tail|);
    }
  }

  /** Once the terminator is out neither the recording nor the socket changes within the turn. */
  lemma {:induction false} TerminatedIsFinal(events: seq<Event>, e: Event)
    requires Run(events).w.terminated && !e.StartTurn?
    ensures var s, t := Run(events), Run(events + [e]);
      t.w.terminated && t.Socket() == s.Socket() && t.m.source == s.m.source
  {
    var s := Run(events);
    assert (events + [e])[..|events|] == events;
    if e.MainStep? {
      MainStepEffect(s.m, s.sh, e);
    } else if InLoop(s.w.at) && !Wires(s.w.at) {
      LoopEffect(s.w, s.sh, e);
    } else if !Wires(s.w.at) {
      EndEffect(s.w, s.sh, e);
    }
  }

  // ---- exactly when a released recording can still complete ----

  predicate SameTurn(events: seq<Event>) {
    forall i | 0 <= i < |events| :: !events[i].StartTurn?
  }

  function RunFrom(s: State, events: seq<Event>): (t: State)
    requires Inv(s)
    ensures Inv(t)
    decreases |events|
  {
    if events == [] then s
    else
      NextKeepsInv(s, events[0]);
      RunFrom(Next(s, events[0]), events[1..])
  }

  lemma {:induction false} RunFromAppend(s: State, a: seq<Event>, b: seq<Event>)
    requires Inv(s)
    ensures RunFrom(s, a + b) == RunFrom(RunFrom(s, a), b)
    decreases |a|
  {
    if a == [] {
      assert a + b == b;
    } else {
      NextKeepsInv(s, a[0]);
      assert (a + b)[1..] == a[1..] + b;
      RunFromAppend(Next(s, a[0]), a[1..], b);
    }
  }

  /** Recording has ended, nothing has failed, and the worker is still uploading. */
  ghost predicate Releasing(s: State) {
    && Inv(s) && s.m.at == ProcTop && s.m.release && !s.sh.finished && !s.sh.failed
    && Uploading(s.w.at)
  }

  /** A well-behaved step: the socket takes everything offered and every answer is good. */
  function Good(at: WorkerAt): Event {
    WorkerStep(if at.Send? then |EncodeChunk(at.data)| else 5, true, Ready, false)
  }

  const TICK := MainStep([], false, false, false)

  lemma {:induction false} OverflowNeverCompletes(s: State, events: seq<Event>)
    requires Inv(s) && s.m.ring.overflow && SameTurn(events)
    ensures !RunFrom(s, events).w.terminated
    decreases |events|
  {
    if events != [] {
      var e := events[0];
      NextKeepsInv(s, e);
      if e.MainStep? {
        MainStepEffect(s.m, s.sh, e);
      }
      OverflowNeverCompletes(Next(s, e), events[1..]);
    }
  }

  /** The top of the worker's loop with nothing to send, or its end once told that no more comes. */
  predicate WorkerDone(s: State) {
    s.sh.stream == [] && if s.sh.finished then s.w.at.After? else s.w.at.CheckFailed?
  }

  lemma {:induction false} WorkerDrains(s: State) returns (events: seq<Event>)
    requires Inv(s) && (Uploading(s.w.at) || WorkerDone(s)) && !s.sh.failed
    ensures SameTurn(events)
    ensures var t := RunFrom(s, events); t.m == s.m && !t.sh.failed && t.sh.finished == s.sh.finished && WorkerDone(t)
    decreases |s.sh.stream|, WorkerRank(s.w.at, s.sh.stream == [], s.sh.finished)
  {
    if WorkerDone(s) {
      return [];
    }
    var e := Good(s.w.at);
    NextKeepsInv(s, e);
    GoodStep(s);
    var rest := WorkerDrains(Next(s, e));
    events := [e] + rest;
  }

  lemma GoodStep(s: State)
    requires Inv(s) && Uploading(s.w.at) && !WorkerDone(s) && !s.sh.failed
    ensures var t := Next(s, Good(s.w.at));
      && t.m == s.m && !t.sh.failed && t.sh.finished == s.sh.finished && (Uploading(t.w.at) || WorkerDone(t))
      && (|t.sh.stream| < |s.sh.stream|
          || (t.sh.stream == s.sh.stream && WorkerRank(t.w.at, t.sh.stream == [], t.sh.finished)
                                            < WorkerRank(s.w.at, s.sh.stream == [], s.sh.finished)))
  {
  }

  function WorkerRank(at: WorkerAt, empty: bool, finished: bool): nat {
    if empty then
      match at
      case Send(_, _) => 7
      case Open => 6
      case CheckFailed => if finished then 5 else 1
      case Receive => 4
      case CheckFinished => 3
      case CheckEmpty => 2
      case _ => 0
    else
      match at
      case Send(_, _) => 7
      case Open => 6
      case CheckFinished => 5
      case CheckEmpty => 4
      case CheckFailed => 3
      case Receive => 2
      case _ => 0
  }

  /** The main loop moves the whole ring into an empty stream and marks the upload finished. */
  lemma {:induction false} MainDrains(s: State) returns (events: seq<Event>)
    requires Inv(s) && (s.m.at.DrainProc? || s.m.at.SendProc?) && !s.m.ring.overflow && !s.sh.failed
    requires |s.sh.stream| + |Held(s.m.at)| + |s.m.ring.stored| <= RING_CAPACITY
    ensures SameTurn(events)
    ensures var t := RunFrom(s, events); t.w == s.w && t.sh.finished && !t.sh.failed && t.m.ring.stored == []
    decreases |s.m.ring.stored|, if s.m.at.SendProc? then 1 else 0
  {
    NextKeepsInv(s, TICK);
    var t := Next(s, TICK);
    if t.m.at.MarkFinished? {
      NextKeepsInv(t, TICK);
      events := [TICK, TICK];
      assert RunFrom(s, events) == RunFrom(t, events[1..]) == Next(t, TICK) by {
        assert events[1..] == [TICK] && events[1..][1..] == [];
      }
    } else {
      var rest := MainDrains(t);
      events := [TICK] + rest;
    }
  }

  /** From a drained loop the next two good steps write the terminator. */
  lemma {:induction false} WorkerCloses(s: State) returns (events: seq<Event>)
    requires Inv(s) && s.w.at.After? && !s.sh.failed
    ensures SameTurn(events) && RunFrom(s, events).w.terminated
  {
    var e := Good(s.w.at);
    NextKeepsInv(s, e);
    var t := Next(s, e);
    assert t.w.at == Close(0);
    NextKeepsInv(t, Good(t.w.at));
    var u := Next(t, Good(t.w.at));
    assert u.w.terminated;
    events := [e, Good(t.w.at)];
    assert events[1..] == [Good(t.w.at)] && events[1..][1..] == [];
    assert RunFrom(t, events[1..]) == RunFrom(u, []) == u;
  }

  lemma {:induction false} WorkerFinishes(s: State) returns (events: seq<Event>)
    requires Inv(s) && Uploading(s.w.at) && s.sh.finished && !s.sh.failed
    ensures SameTurn(events) && RunFrom(s, events).w.terminated
  {
    var first := WorkerDrains(s);
    var last := WorkerCloses(RunFrom(s, first));
    RunFromAppend(s, first, last);
    events := first + last;
  }

  lemma ReleasedCompletes(s: State) returns (events: seq<Event>)
    requires Releasing(s) && !s.m.ring.overflow
    ensures SameTurn(events) && RunFrom(s, events).w.terminated
  {
    var first := WorkerDrains(s);
    var s1 := RunFrom(s, first);
    NextKeepsInv(s1, TICK);
    var s2 := Next(s1, TICK);
    var second := MainDrains(s2);
    var last := WorkerFinishes(RunFrom(s2, second));
    RunFromAppend(s2, second, last);
    var later := second + last;
    assert ([TICK] + later)[1..] == later;
    assert RunFrom(s1, [TICK] + later) == RunFrom(s2, later);
    RunFromAppend(s, first, [TICK] + later);
    events := first + ([TICK] + later);
  }

  /** If and only if the ring did not overflow can a released recording still be sent whole: an overflow
      in the very tick that ends recording leaves the worker waiting, while otherwise some schedule of
      well-behaved steps always gets the terminator out. */
  lemma ReleasedRecordingCompletesIff(s: State)
    requires Releasing(s)
    ensures !s.m.ring.overflow <==> exists events :: SameTurn(events) && RunFrom(s, events).w.terminated
  {
    if s.m.ring.overflow {
      forall events | SameTurn(events)
        ensures !RunFrom(s, events).w.terminated
      {
        OverflowNeverCompletes(s, events);
      }
    } else {
      var events := ReleasedCompletes(s);
    }
  }

  // ---- what can be reached ----

  ghost predicate Reachable(s: State) {
    exists events :: Run(events) == s
  }

  lemma ReachableInv(s: State)
    requires Reachable(s)
    ensures Inv(s)
  {
  }

  lemma ReachNext(s: State, e: Event)
    requires Reachable(s)
    ensures Bounded(s.m, s.sh) && Reachable(Next(s, e))
  {
    var events :| Run(events) == s;
    assert (events + [e])[..|events|] == events;
    assert Run(events + [e]) == Next(s, e);
  }

  lemma StartIsReachable()
    ensures Reachable(START)
  {
    assert Run([]) == START;
  }

  const WORKER_OPEN := WorkerTask(Open, [], [], false)
  const TURN_FLAGS := Shared([], false, false, false, true, false, false, Waiting)

  /** In the tick after START_RECORD, with `heard` read from the microphone so far. */
  function Capturing(heard: seq<byte>, overflow: bool, source: seq<byte>): State {
    State(MainTask(Capture, RingBuffer.Fifo(heard, overflow), false, source), WORKER_OPEN, TURN_FLAGS)
  }

  lemma CaptureBegins()
    ensures Reachable(Capturing([], false, []))
  {
    hide Inv, Reachable;
    StartIsReachable();
    ReachNext(START, StartTurn([], 0, true));
    var s1 := Next(START, StartTurn([], 0, true));
    ReachNext(s1, TICK);
    var s2 := Next(s1, TICK);
    ReachNext(s2, TICK);
    var s3 := Next(s2, TICK);
    ReachNext(s3, TICK);
    var s4 := Next(s3, TICK);
    ReachNext(s4, TICK);
    assert Next(s4, TICK) == Capturing([], false, []);
  }

  function Read(chunk: seq<byte>): Event {
    MainStep(chunk, false, false, false)
  }

  /** As many whole chunks as the ring takes. */
  lemma {:induction false} CaptureChunks(n: nat) returns (heard: seq<byte>)
    requires n * MAIN_CHUNK <= RING_CAPACITY
    ensures |heard| == n * MAIN_CHUNK && Reachable(Capturing(heard, false, heard))
  {
    if n == 0 {
      heard := [];
      CaptureBegins();
    } else {
      var before := CaptureChunks(n - 1);
      var chunk: seq<byte> := seq(MAIN_CHUNK, _ => 0);
      ReachNext(Capturing(before, false, before), Read(chunk));
      heard := before + chunk;
      assert chunk[..MAIN_CHUNK] == chunk;
      assert Next(Capturing(before, false, before), Read(chunk)) == Capturing(heard, false, heard);
    }
  }

  const FINISH := MainStep([], true, false, false)

  /** The tick ends the recording: nothing more is read, and the ring is empty or has overflowed. */
  lemma RecordingReleased(heard: seq<byte>, overflow: bool, source: seq<byte>)
    requires Reachable(Capturing(heard, overflow, source)) && (overflow || heard == [])
    ensures Reachable(State(MainTask(ProcTop, RingBuffer.Fifo(heard, overflow), true, source), WORKER_OPEN, TURN_FLAGS))
  {
    hide Inv, Reachable;
    var s := Capturing(heard, overflow, source);
    ReachNext(s, TICK);
    var s1 := Next(s, TICK);
    ReachNext(s1, TICK);
    var s2 := Next(s1, TICK);
    ReachNext(s2, FINISH);
    var s3 := Next(s2, FINISH);
    ReachNext(s3, TICK);
    assert Next(s3, TICK)
        == State(MainTask(ProcTop, RingBuffer.Fifo(heard, overflow), true, source), WORKER_OPEN, TURN_FLAGS);
  }

  /** A tick that reads one chunk more than the ring holds and ends the recording gets there: the stalled
      worker is real. */
  lemma OverflowedReleaseHappens()
    ensures exists events :: Releasing(Run(events)) && Run(events).m.ring.overflow
  {
    var heard := CaptureChunks(RING_CAPACITY / MAIN_CHUNK);
    var chunk: seq<byte> := seq(MAIN_CHUNK, _ => 0);
    ReachNext(Capturing(heard, false, heard), Read(chunk));
    assert heard + chunk[..0] == heard;
    assert Next(Capturing(heard, false, heard), Read(chunk)) == Capturing(heard, true, heard + chunk);
    RecordingReleased(heard, true, heard + chunk);
    var s := State(MainTask(ProcTop, RingBuffer.Fifo(heard, true), true, heard + chunk), WORKER_OPEN, TURN_FLAGS);
    ReachableInv(s);
    var events :| Run(events) == s;
  }

  // ---- a turn whose worker has gone ----

  predicate InProcessing(at: MainAt) {
    at.ProcTop? || at.DrainProc? || at.SendProc? || at.MarkFinished? || at.ProcRest?
  }

  /** What lets a turn out of PROCESSING once its worker has gone: ids that could not be saved or cleared, or,
      unless the user cancelled it, a failed turn or one whose audio has started and that was not cancelled. */
  predicate MayLeave(sh: Shared) {
    sh.storageFailed || (!sh.cancel && (sh.result == Failed || (sh.audioStarted && sh.result != Cancelled)))
  }

  /** The main loop asks for IDLE, which the state machine refuses from PROCESSING, or for nothing at all. */
  predicate StuckInProcessing(s: State) {
    InProcessing(s.m.at) && !s.sh.taskActive && s.w.at.NoTask? && !MayLeave(s.sh)
  }

  /** Whatever happens next, the device stays in PROCESSING. */
  lemma {:induction false} StuckForever(s: State, events: seq<Event>)
    requires Inv(s) && StuckInProcessing(s)
    ensures StuckInProcessing(RunFrom(s, events))
    decreases |events|
  {
    if events != [] {
      NextKeepsInv(s, events[0]);
      StuckStep(s, events[0]);
      StuckForever(Next(s, events[0]), events[1..]);
    }
  }

  lemma StuckStep(s: State, e: Event)
    requires Inv(s) && StuckInProcessing(s)
    ensures StuckInProcessing(Next(s, e))
  {
    if e.MainStep? && Moves(s.m.at) {
      SendOrDrainInProcessing(s.m, s.sh, e);
    }
  }

  lemma SendOrDrainInProcessing(m: MainTask, sh: Shared, e: Event)
    requires Bounded(m, sh) && e.MainStep? && (m.at.DrainProc? || m.at.SendProc?)
    ensures var (m', sh') := PipeNext(m, sh, e);
      && InProcessing(m'.at) && sh'.cancel == sh.cancel && sh'.taskActive == sh.taskActive
      && sh'.storageFailed == sh.storageFailed && sh'.result == sh.result && sh'.audioStarted == sh.audioStarted
  {
  }

  /** The rest of a tick of PROCESSING, with no cue playing and no button pressed. */
  lemma {:induction false} LeavesProcessing(s: State) returns (events: seq<Event>)
    requires Inv(s) && InProcessing(s.m.at) && !s.sh.taskActive && MayLeave(s.sh)
    ensures !InProcessing(RunFrom(s, events).m.at)
    decreases |s.m.ring.stored|, TickRank(s.m.at)
  {
    assert Bounded(s.m, s.sh);
    hide Inv;
    NextKeepsInv(s, FINISH);
    var t := Next(s, FINISH);
    if s.m.at.ProcRest? {
      events := [FINISH];
      assert events[1..] == [] && RunFrom(s, events) == RunFrom(t, events[1..]);
    } else {
      TickGoesOn(s);
      var rest := LeavesProcessing(t);
      events := [FINISH] + rest;
      assert events[1..] == rest;
    }
  }

  function TickRank(at: MainAt): nat {
    match at
    case ProcTop => 4
    case SendProc(_) => 3
    case DrainProc => 2
    case MarkFinished => 1
    case _ => 0
  }

  lemma TickGoesOn(s: State)
    requires Inv(s) && InProcessing(s.m.at) && !s.m.at.ProcRest?
    ensures var t := Next(s, FINISH);
      && InProcessing(t.m.at) && t.sh.taskActive == s.sh.taskActive && MayLeave(t.sh) == MayLeave(s.sh)
      && (|t.m.ring.stored| < |s.m.ring.stored|
          || (t.m.ring.stored == s.m.ring.stored && TickRank(t.m.at) < TickRank(s.m.at)))
  {
    hide SocketInv, FlagInv;
  }

  /** Once its worker has gone, a turn leaves PROCESSING in some run if and only if the flags let it. */
  lemma TurnLeavesIff(s: State)
    requires Inv(s) && InProcessing(s.m.at) && !s.sh.taskActive
    ensures MayLeave(s.sh) <==> exists events :: !InProcessing(RunFrom(s, events).m.at)
  {
    if MayLeave(s.sh) {
      var events := LeavesProcessing(s);
      assert !InProcessing(RunFrom(s, events).m.at);
    } else {
      forall events: seq<Event>
        ensures InProcessing(RunFrom(s, events).m.at)
      {
        StuckForever(s, events);
      }
    }
  }

  /** The recording was sent whole; then the worker ends, with or without the button pressed before. */
  lemma TurnEnds(pressed: bool, outcome: Result)
    requires outcome == Cancelled || outcome == Ready
    ensures exists events :: var s := Run(events);
      StuckInProcessing(s) && s.w.terminated && s.sh.cancel == pressed && s.sh.result == outcome
  {
    hide Inv, Reachable;
    CaptureBegins();
    RecordingReleased([], false, []);
    var s := State(MainTask(ProcTop, RingBuffer.EMPTY, true, []), WORKER_OPEN, TURN_FLAGS);
    TickInProcessing(s, pressed);
    var flags := TURN_FLAGS.(finished := true, cancel := pressed);
    var ticked := State(s.m, WORKER_OPEN, flags);
    BodyClosed(ticked);
    var closed := State(s.m, WorkerTask(Response, [], LAST_CHUNK, true), flags);
    WorkerEnds(closed, outcome);
    var gone := flags.(result := outcome, taskActive := false);
    AtLast(State(s.m, WorkerTask(NoTask, [], LAST_CHUNK, true), gone));
  }

  lemma AtLast(s: State)
    requires Reachable(s) && StuckInProcessing(s) && s.w.terminated
    ensures exists events :: var t := Run(events);
      StuckInProcessing(t) && t.w.terminated && t.sh.cancel == s.sh.cancel && t.sh.result == s.sh.result
  {
    var events :| Run(events) == s;
  }

  /** The user cancels a turn in PROCESSING and it gets stuck. */
  lemma CancelledTurnHappens()
    ensures exists events :: StuckInProcessing(Run(events)) && Run(events).sh.cancel
  {
    TurnEnds(true, Cancelled);
    var events :| StuckInProcessing(Run(events)) && Run(events).sh.cancel;
  }

  /** The server cancels it, and it gets stuck without any button. */
  lemma ServerCancelledTurnHappens()
    ensures exists events ::
      StuckInProcessing(Run(events)) && !Run(events).sh.cancel && Run(events).sh.result == Cancelled
  {
    TurnEnds(false, Cancelled);
    var events :| StuckInProcessing(Run(events)) && !Run(events).sh.cancel && Run(events).sh.result == Cancelled;
  }

  /** So does a turn that ends ready without any sound. */
  lemma SilentTurnHappens()
    ensures exists events ::
      StuckInProcessing(Run(events)) && !Run(events).sh.cancel && Run(events).sh.result == Ready
  {
    TurnEnds(false, Ready);
    var events :| StuckInProcessing(Run(events)) && !Run(events).sh.cancel && Run(events).sh.result == Ready;
  }

  lemma TickInProcessing(s: State, pressed: bool)
    requires s == State(MainTask(ProcTop, RingBuffer.EMPTY, true, []), WORKER_OPEN, TURN_FLAGS) && Reachable(s)
    ensures Reachable(s.(sh := s.sh.(finished := true, cancel := pressed)))
  {
    hide Inv, Reachable;
    ReachNext(s, TICK);
    var s1 := Next(s, TICK);
    ReachNext(s1, TICK);
    var s2 := Next(s1, TICK);
    ReachNext(s2, TICK);
    var s3 := Next(s2, TICK);
    var last := MainStep([], false, false, pressed);
    ReachNext(s3, last);
    assert Next(s3, last) == s.(sh := s.sh.(finished := true, cancel := pressed));
  }

  /** Nothing was recorded, so the body is the terminator alone. */
  lemma BodyClosed(s: State)
    requires Reachable(s) && s.w == WORKER_OPEN && s.sh.stream == [] && s.sh.finished && !s.sh.failed
    ensures Reachable(s.(w := WorkerTask(Response, [], LAST_CHUNK, true)))
  {
    hide Inv, Reachable;
    var e := WorkerStep(5, true, Waiting, false);
    ReachNext(s, e);
    var s1 := s.(w := s.w.(at := CheckFailed));
    ReachNext(s1, e);
    var s2 := s.(w := s.w.(at := Receive));
    ReachNext(s2, e);
    var s3 := s.(w := s.w.(at := CheckFinished));
    ReachNext(s3, e);
    var s4 := s.(w := s.w.(at := CheckEmpty));
    ReachNext(s4, e);
    var s5 := s.(w := s.w.(at := After));
    ReachNext(s5, e);
    var s6 := s.(w := s.w.(at := Close(0)));
    ReachNext(s6, e);
    assert Next(s6, e) == s.(w := WorkerTask(Response, [], LAST_CHUNK, true));
  }

  lemma WorkerEnds(s: State, outcome: Result)
    requires Reachable(s) && s.w.at.Response? && !s.sh.failed && !s.sh.storageFailed && outcome != Waiting
    ensures Reachable(s.(w := s.w.(at := NoTask), sh := s.sh.(result := outcome, taskActive := false)))
  {
    hide Inv, Reachable;
    var answered, ended := WorkerStep(0, true, outcome, false), WorkerStep(0, false, outcome, false);
    ReachNext(s, answered);
    var s1 := s.(w := s.w.(at := Recheck));
    ReachNext(s1, ended);
    var s2 := s.(w := s.w.(at := Turn));
    ReachNext(s2, ended);
    var s3 := s.(w := s.w.(at := Leave), sh := s.sh.(result := outcome));
    ReachNext(s3, ended);
  }
}
