/** The voice turn client: a timed machine that looks up, polls, downloads and cancels one turn through
    callbacks. Its state is a value with a log of every callback, and safety is proved over whole runs. */
module TurnClient {
  import opened Options

  const DEADLINE_MS: nat := 180000
  const POLL_INTERVAL_MS: nat := 1000

  datatype Io = Ok | Retry | NotFound | Fatal | IoCancelled
  datatype Status = Unknown | Queued | Running | Transcribing | Thinking | Synthesizing | Ready | Failed | Cancelled
  datatype Error = NoError | UnknownError | AgentTimeout | SttFailed | TtsFailed | Connection | Deadline
  datatype Result = Waiting | TurnReady | TurnFailed | TurnCancelled

  datatype Response = Response(
    error: Error, status: Status, followUpListen: bool, streamReady: bool, streamConsumed: bool,
    questionId: string, turnId: string,
    httpStatus: int, contentType: string, sampleRate: nat, channels: nat, bitsPerSample: nat)

  /** Which callbacks the caller supplied. */
  datatype Ops = Ops(lookup: bool, poll: bool, download: bool, cancel: bool, save: bool, clear: bool)

  /** How the callbacks will answer if they are called. */
  datatype Answers = Answers(
    lookup: Io, found: Response, poll: Io, polled: Response, download: Io, audio: Response, cancel: Io, save: bool)

  datatype Event =
    | Given(id: string)
    | Lookup(id: string)
    | Save(id: string, ok: bool)
    | Poll(id: string, io: Io, status: Status)
    | Download(id: string, io: Io, audio: Response)
    | Cancel(id: string)
    | Clear
    | FollowUp(id: string)

  // ---- checks on what comes back ----

  predicate IsHex(ch: char) {
    '0' <= ch <= '9' || 'a' <= ch <= 'f' || 'A' <= ch <= 'F'
  }

  predicate IsUuid(id: string) {
    && |id| == 36
    && forall i | 0 <= i < 36 :: if i == 8 || i == 13 || i == 18 || i == 23 then id[i] == '-' else IsHex(id[i])
  }

  function Lower(ch: char): char {
    if 'A' <= ch <= 'Z' then ch - 'A' + 'a' else ch
  }

  function LowerAll(s: string): (l: string)
    ensures |l| == |s|
  {
    seq(|s|, i requires 0 <= i < |s| => Lower(s[i]))
  }

  function Trim(s: string): (t: string)
    ensures t <= s
  {
    if s != "" && (s[|s| - 1] == ' ' || s[|s| - 1] == '\t') then Trim(s[..|s| - 1]) else s
  }

  const WAV := "audio/wav"
  const MPEG := "audio/mpeg"

  /** The media type is the expected one, alone or before parameters. */
  predicate IsMedia(contentType: string, expected: string) {
    var t := Trim(contentType);
    |t| >= |expected| && LowerAll(t[..|expected|]) == expected && (|t| > |expected| ==> t[|expected|] == ';')
  }

  predicate AudioValid(r: Response) {
    && r.httpStatus == 200
    && IsMedia(r.contentType, if |r.contentType| >= 10 && LowerAll(r.contentType[..10]) == MPEG then MPEG else WAV)
    && r.sampleRate == 24000 && r.channels == 1 && r.bitsPerSample == 16
  }

  predicate Pending(s: Status) {
    s == Queued || s == Running || s == Transcribing || s == Thinking || s == Synthesizing
  }

  function RetryDelay(attempts: nat): (d: nat)
    ensures 1000 <= d <= 5000
  {
    if attempts == 0 then 1000 else if attempts == 1 then 2000 else if attempts == 2 then 4000 else 5000
  }

  // ---- the machine ----

  datatype Audio = Audio(pending: bool, early: bool, downloaded: bool)
  datatype Ids = Ids(request: string, turn: string, cleared: bool)

  datatype Client = Client(
    ops: Option<Ops>, ids: Ids, deadline: nat, nextPoll: nat, retries: nat, result: Result, status: Status,
    audio: Audio, cancelRequested: bool, error: Error, followUp: bool, questionId: string, log: seq<Event>)

  function Note(c: Client, e: Event): Client {
    c.(log := c.log + [e])
  }

  function ClearIds(c: Client): Client {
    var d :=
      if c.ids.cleared || c.ops.None? || !c.ops.value.clear then c else Note(c.(ids := c.ids.(cleared := true)), Clear);
    d.(ids := d.ids.(request := "", turn := ""))
  }

  function Finish(c: Client, r: Result): Client {
    ClearIds(c.(result := r, error := if r == TurnFailed && c.error == NoError then UnknownError else c.error))
  }

  function RetryLater(c: Client, now: nat): Client {
    c.(nextPoll := now + RetryDelay(c.retries), retries := c.retries + 1)
  }

  function Blank(ops: Option<Ops>, now: nat): Client {
    Client(ops, Ids("", "", false), now + DEADLINE_MS, now + POLL_INTERVAL_MS, 0, Waiting, Queued,
           Audio(false, false, false), false, NoError, false, "", [])
  }

  /** Take over the ids the caller has saved; bad ones end the turn before it starts. */
  function Begin(c: Client, request: string, saved: string): Client {
    if c.ops.None? || !IsUuid(request) then ClearIds(c.(result := TurnFailed))
    else
      var d := c.(ids := c.ids.(request := request));
      if saved == "" then d
      else if !IsUuid(saved) then ClearIds(d.(result := TurnFailed))
      else Note(d.(ids := d.ids.(turn := saved)), Given(saved))
  }

  function Init(ops: Option<Ops>, request: string, saved: string, now: nat): Client {
    Begin(Blank(ops, now), request, saved)
  }

  function DownloadAudio(c: Client, now: nat, a: Answers): Client
    requires c.ops.Some?
  {
    if !c.ops.value.download then Finish(c, TurnFailed)
    else
      var d := Note(c, Download(c.ids.turn, a.download, a.audio));
      if a.download == IoCancelled then d.(cancelRequested := true, nextPoll := now)
      else if a.download == Retry then if c.audio.early then Finish(d, TurnFailed) else RetryLater(d, now)
      else if a.download != Ok || !AudioValid(a.audio) then Finish(d, TurnFailed)
      else
        var e := d.(audio := Audio(false, c.audio.early, true));
        if c.audio.early then e.(nextPoll := now + POLL_INTERVAL_MS) else Finish(e, TurnReady)
  }

  function CancelTurn(c: Client, now: nat, io: Io): Client
    requires c.ops.Some?
  {
    if !c.ops.value.cancel then Finish(c, TurnCancelled)
    else
      var d := Note(c, Cancel(c.ids.turn));
      if io == Retry then RetryLater(d, now) else Finish(d, TurnCancelled)
  }

  function LookupTurn(c: Client, now: nat, a: Answers): Client
    requires c.ops.Some?
  {
    if !c.ops.value.lookup then Finish(c, TurnFailed)
    else
      var d := Note(c, Lookup(c.ids.request));
      if a.lookup == Retry then RetryLater(d, now)
      else if a.lookup != Ok || !IsUuid(a.found.turnId) then Finish(d, TurnFailed)
      else
        var e := d.(ids := d.ids.(turn := a.found.turnId));
        if !c.ops.value.save then Finish(e, TurnFailed)
        else
          var f := Note(e, Save(a.found.turnId, a.save));
          if !a.save then Finish(f, TurnFailed)
          else f.(retries := 0, status := a.found.status, error := a.found.error, nextPoll := now + POLL_INTERVAL_MS)
  }

  function PollTurn(c: Client, now: nat, a: Answers): Client
    requires c.ops.Some?
  {
    if !c.ops.value.poll then Finish(c, TurnFailed)
    else
      var r := a.polled;
      var d := Note(c, Poll(c.ids.turn, a.poll, r.status));
      if a.poll == Retry then RetryLater(d, now)
      else if a.poll != Ok then Finish(d, TurnFailed)
      else Polled(d.(retries := 0, status := r.status, error := r.error), now, a)
  }

  /** A status has come back. */
  function Polled(c: Client, now: nat, a: Answers): Client
    requires c.ops.Some?
  {
    var r := a.polled;
    if r.streamConsumed && !c.audio.downloaded then Finish(c, TurnFailed)
    else if Pending(r.status) then
      if r.streamReady && r.status == Synthesizing && !c.audio.downloaded then
        DownloadAudio(c.(audio := c.audio.(early := true, pending := true)), now, a)
      else c.(nextPoll := now + POLL_INTERVAL_MS)
    else if r.status == Cancelled then Finish(c, TurnCancelled)
    else if r.status != Ready then Finish(c, TurnFailed)
    else
      var listens := r.followUpListen && IsUuid(r.questionId);
      var d := c.(followUp := listens, questionId := if listens then r.questionId else c.questionId);
      if c.audio.downloaded then Finish(d, TurnReady)
      else DownloadAudio(d.(audio := d.audio.(pending := true)), now, a)
  }

  function Tick(c: Client, now: nat, a: Answers): Client {
    if c.result != Waiting then c
    else if c.ops.None? || now >= c.deadline then
      Finish(if now >= c.deadline then c.(error := Deadline) else c, TurnFailed)
    else if now < c.nextPoll then c
    else if c.cancelRequested && c.ids.turn != "" then CancelTurn(c, now, a.cancel)
    else if c.audio.pending then DownloadAudio(c, now, a)
    else if c.ids.turn == "" then LookupTurn(c, now, a)
    else PollTurn(c, now, a)
  }

  function RequestCancel(c: Client, now: nat, io: Io): Client {
    if c.result != Waiting then c
    else
      var d := c.(cancelRequested := true);
      if c.cancelRequested && now < c.nextPoll then d
      else if c.ids.turn == "" then d
      else if c.ops.None? then Finish(d, TurnCancelled)
      else CancelTurn(d, now, io)
  }

  predicate FollowUpDue(c: Client, played: bool) {
    c.followUp && played && c.result == TurnReady && IsUuid(c.questionId)
  }

  function TakeFollowUp(c: Client, played: bool): Client {
    var d := c.(followUp := false);
    if FollowUpDue(c, played) then Note(d, FollowUp(c.questionId)) else d
  }

  datatype Step = TickAt(now: nat, a: Answers) | CancelAt(now: nat, io: Io) | Take(played: bool)

  function Next(c: Client, s: Step): Client {
    match s
    case TickAt(now, a) => Tick(c, now, a)
    case CancelAt(now, io) => RequestCancel(c, now, io)
    case Take(played) => TakeFollowUp(c, played)
  }

  function Run(c: Client, steps: seq<Step>): Client
    decreases |steps|
  {
    if steps == [] then c else Run(Next(c, steps[0]), steps[1..])
  }

  // ---- what a log says ----

  datatype Kind = OkDownload | GoodDownload | ReadyPoll | Clearing | Handing

  predicate Is(e: Event, k: Kind) {
    match k
    case OkDownload => e.Download? && e.io == Ok
    case GoodDownload => e.Download? && e.io == Ok && AudioValid(e.audio)
    case ReadyPoll => e.Poll? && e.io == Ok && e.status == Ready
    case Clearing => e.Clear?
    case Handing => e.FollowUp?
  }

  function Count(log: seq<Event>, k: Kind): nat {
    if log == [] then 0 else Count(log[..|log| - 1], k) + (if Is(log[|log| - 1], k) then 1 else 0)
  }

  lemma CountNote(log: seq<Event>, e: Event, k: Kind)
    ensures Count(log + [e], k) == Count(log, k) + (if Is(e, k) then 1 else 0)
  {
    assert (log + [e])[..|log|] == log;
  }

  predicate UsesTurn(e: Event) {
    e.Poll? || e.Download? || e.Cancel?
  }

  ghost predicate Saved(log: seq<Event>, id: string) {
    exists k | 0 <= k < |log| :: log[k] == Given(id) || log[k] == Save(id, true)
  }

  /** Every poll, download and cancel uses an id that was saved before it. */
  ghost predicate OnlySaved(log: seq<Event>) {
    forall k | 0 <= k < |log| && UsesTurn(log[k]) :: Saved(log[..k], log[k].id)
  }

  lemma SavedNote(log: seq<Event>, e: Event)
    requires OnlySaved(log) && (UsesTurn(e) ==> Saved(log, e.id))
    ensures OnlySaved(log + [e])
    ensures forall id: string | Saved(log, id) :: Saved(log + [e], id)
  {
    var now := log + [e];
    forall k | 0 <= k < |now| && UsesTurn(now[k])
      ensures Saved(now[..k], now[k].id)
    {
      assert now[..k] == log[..k];
    }
    forall id: string | Saved(log, id)
      ensures Saved(now, id)
    {
      var k :| 0 <= k < |log| && (log[k] == Given(id) || log[k] == Save(id, true));
      assert now[k] == log[k];
    }
  }

  // ---- the invariant ----

  /** Sound was fetched once if at all, and a ready turn was polled ready. */
  predicate AudioInv(c: Client) {
    && Count(c.log, GoodDownload) == (if c.audio.downloaded then 1 else 0)
    && (c.result == Waiting || c.result == TurnReady ==> Count(c.log, OkDownload) == Count(c.log, GoodDownload))
    && (c.result == Waiting && c.audio.pending ==> !c.audio.downloaded && c.ids.turn != "")
    && (c.result == Waiting && c.audio.pending && !c.audio.early ==> Count(c.log, ReadyPoll) > 0)
    && (c.result == TurnReady ==> c.audio.downloaded && Count(c.log, ReadyPoll) > 0)
  }

  predicate Terminal(c: Client) {
    c.result != Waiting
  }

  /** The saved ids are cleared exactly once, at the end. */
  predicate ClearInv(c: Client) {
    && Count(c.log, Clearing) == (if c.ids.cleared then 1 else 0)
    && (c.ids.cleared <==> Terminal(c) && c.ops.Some? && c.ops.value.clear)
    && (Terminal(c) ==> c.ids.turn == "" && c.ids.request == "")
  }

  ghost predicate IdInv(c: Client) {
    OnlySaved(c.log) && (c.ids.turn != "" ==> Saved(c.log, c.ids.turn))
  }

  /** A follow-up is handed out at most once, and only by a turn that is ready. */
  predicate FollowInv(c: Client) {
    Count(c.log, Handing) <= 1 && (Count(c.log, Handing) == 1 ==> c.result == TurnReady && !c.followUp)
  }

  ghost predicate Parts(c: Client) {
    AudioInv(c) && ClearInv(c) && IdInv(c) && FollowInv(c)
  }

  /** A turn asked to be cancelled does not end ready. */
  predicate CancelInv(c: Client) {
    c.cancelRequested ==> c.result != TurnReady
  }

  /** An early download is over within its tick: the sound is there, or the user cancelled it. */
  predicate EarlyInv(c: Client) {
    c.result == Waiting && c.audio.early && !c.audio.downloaded ==> c.audio.pending && c.cancelRequested
  }

  ghost predicate Inv(c: Client) {
    Parts(c) && CancelInv(c) && EarlyInv(c)
  }

  // ---- finishing ----

  lemma FinishKeepsAudio(c: Client, r: Result)
    requires Count(c.log, GoodDownload) == (if c.audio.downloaded then 1 else 0) && r != Waiting
    requires r == TurnReady ==>
      && Count(c.log, OkDownload) == Count(c.log, GoodDownload) && c.audio.downloaded && Count(c.log, ReadyPoll) > 0
    ensures AudioInv(Finish(c, r))
  {
    CountNote(c.log, Clear, GoodDownload);
    CountNote(c.log, Clear, OkDownload);
    CountNote(c.log, Clear, ReadyPoll);
  }

  lemma FinishKeepsRest(c: Client, r: Result)
    requires c.result == Waiting && ClearInv(c) && OnlySaved(c.log) && FollowInv(c) && r != Waiting
    ensures ClearInv(Finish(c, r)) && IdInv(Finish(c, r)) && FollowInv(Finish(c, r))
  {
    CountNote(c.log, Clear, Clearing);
    CountNote(c.log, Clear, Handing);
    SavedNote(c.log, Clear);
  }

  /** A callback that neither clears nor hands out anything keeps what concerns clearing and handing. */
  lemma NoteKeepsRest(c: Client, e: Event)
    requires c.result == Waiting && ClearInv(c) && OnlySaved(c.log) && FollowInv(c)
    requires !e.Clear? && !e.FollowUp? && (UsesTurn(e) ==> Saved(c.log, e.id))
    ensures var d := Note(c, e); ClearInv(d) && OnlySaved(d.log) && FollowInv(d)
    ensures forall id: string | Saved(c.log, id) :: Saved(Note(c, e).log, id)
  {
    CountNote(c.log, e, Clearing);
    CountNote(c.log, e, Handing);
    SavedNote(c.log, e);
  }

  lemma NoteCounts(c: Client, e: Event)
    ensures forall k: Kind :: Count(Note(c, e).log, k) == Count(c.log, k) + (if Is(e, k) then 1 else 0)
  {
    forall k: Kind
      ensures Count(Note(c, e).log, k) == Count(c.log, k) + (if Is(e, k) then 1 else 0)
    {
      CountNote(c.log, e, k);
    }
  }

  // ---- each part of a tick ----

  lemma DownloadKeeps(c: Client, now: nat, a: Answers)
    requires Parts(c) && c.result == Waiting && c.ops.Some? && c.audio.pending
    ensures Parts(DownloadAudio(c, now, a))
  {
    hide Count, OnlySaved, Saved, AudioValid, ClearIds, IsUuid;
    var e := Download(c.ids.turn, a.download, a.audio);
    var d := Note(c, e);
    NoteKeepsRest(c, e);
    NoteCounts(c, e);
    if !c.ops.value.download {
      FinishKeepsAudio(c, TurnFailed);
      FinishKeepsRest(c, TurnFailed);
    } else if a.download == Ok && AudioValid(a.audio) {
      var done := d.(audio := Audio(false, c.audio.early, true));
      if !c.audio.early {
        FinishKeepsAudio(done, TurnReady);
        FinishKeepsRest(done, TurnReady);
      }
    } else {
      FinishKeepsAudio(d, TurnFailed);
      FinishKeepsRest(d, TurnFailed);
    }
  }

  lemma CancelTurnKeeps(c: Client, now: nat, io: Io)
    requires Parts(c) && c.result == Waiting && c.ops.Some? && c.ids.turn != ""
    ensures Parts(CancelTurn(c, now, io))
  {
    hide Count, OnlySaved, Saved, AudioValid, ClearIds;
    var e := Cancel(c.ids.turn);
    var d := Note(c, e);
    NoteKeepsRest(c, e);
    NoteCounts(c, e);
    FinishKeepsAudio(c, TurnCancelled);
    FinishKeepsRest(c, TurnCancelled);
    FinishKeepsAudio(d, TurnCancelled);
    FinishKeepsRest(d, TurnCancelled);
  }

  lemma LookupKeeps(c: Client, now: nat, a: Answers)
    requires Parts(c) && c.result == Waiting && c.ops.Some? && c.ids.turn == ""
    ensures Parts(LookupTurn(c, now, a))
  {
    hide Count, OnlySaved, AudioValid, ClearIds, IsUuid;
    var e := Lookup(c.ids.request);
    var d := Note(c, e);
    NoteKeepsRest(c, e);
    NoteCounts(c, e);
    FailKeeps(c);
    FailKeeps(d);
    if a.lookup == Ok && IsUuid(a.found.turnId) {
      var f := d.(ids := d.ids.(turn := a.found.turnId));
      FailKeeps(f);
      var s := Save(a.found.turnId, a.save);
      NoteKeepsRest(f, s);
      NoteCounts(f, s);
      FailKeeps(Note(f, s));
      assert a.save ==> Note(f, s).log[|f.log|] == Save(a.found.turnId, true);
    }
  }

  /** Giving up keeps everything, whatever was under way. */
  lemma FailKeeps(c: Client)
    requires c.result == Waiting && ClearInv(c) && OnlySaved(c.log) && FollowInv(c)
    requires Count(c.log, GoodDownload) == (if c.audio.downloaded then 1 else 0)
    ensures Parts(Finish(c, TurnFailed)) && Parts(Finish(c, TurnCancelled))
  {
    FinishKeepsAudio(c, TurnFailed);
    FinishKeepsRest(c, TurnFailed);
    FinishKeepsAudio(c, TurnCancelled);
    FinishKeepsRest(c, TurnCancelled);
  }

  lemma PollKeeps(c: Client, now: nat, a: Answers)
    requires Parts(c) && c.result == Waiting && c.ops.Some? && c.ids.turn != "" && !c.audio.pending
    ensures Parts(PollTurn(c, now, a))
  {
    hide Count, OnlySaved, Saved, AudioValid, Finish, IsUuid;
    var e := Poll(c.ids.turn, a.poll, a.polled.status);
    var d := Note(c, e);
    NoteKeepsRest(c, e);
    NoteCounts(c, e);
    FailKeeps(c);
    FailKeeps(d);
    if c.ops.value.poll && a.poll == Ok {
      PolledKeeps(d.(retries := 0, status := a.polled.status, error := a.polled.error), now, a);
    }
  }

  lemma PolledKeeps(c: Client, now: nat, a: Answers)
    requires Parts(c) && c.result == Waiting && c.ops.Some? && c.ids.turn != "" && !c.audio.pending
    requires a.polled.status == Ready ==> Count(c.log, ReadyPoll) > 0
    ensures Parts(Polled(c, now, a))
  {
    hide Count, OnlySaved, Saved, AudioValid, Finish, IsUuid, DownloadAudio;
    FailKeeps(c);
    var r := a.polled;
    if !r.streamConsumed || c.audio.downloaded {
      if Pending(r.status) {
        var d := c.(audio := c.audio.(early := true, pending := true));
        if !c.audio.downloaded {
          DownloadKeeps(d, now, a);
        }
      } else if r.status == Ready {
        var listens := r.followUpListen && IsUuid(r.questionId);
        var d := c.(followUp := listens, questionId := if listens then r.questionId else c.questionId);
        if c.audio.downloaded {
          FinishKeepsAudio(d, TurnReady);
          FinishKeepsRest(d, TurnReady);
        } else {
          DownloadKeeps(d.(audio := d.audio.(pending := true)), now, a);
        }
      }
    }
  }

  lemma TickKeeps(c: Client, now: nat, a: Answers)
    requires Parts(c)
    ensures Parts(Tick(c, now, a))
  {
    hide Count, OnlySaved, Saved, CancelTurn, DownloadAudio, LookupTurn, PollTurn, Finish;
    if c.result == Waiting {
      if c.ops.None? || now >= c.deadline {
        FailKeeps(if now >= c.deadline then c.(error := Deadline) else c);
      } else {
        PartKeeps(c, now, a);
      }
    }
  }

  lemma PartKeeps(c: Client, now: nat, a: Answers)
    requires Parts(c) && c.result == Waiting && c.ops.Some?
    ensures c.ids.turn != "" ==> Parts(CancelTurn(c, now, a.cancel))
    ensures c.audio.pending ==> Parts(DownloadAudio(c, now, a))
    ensures c.ids.turn == "" ==> Parts(LookupTurn(c, now, a))
    ensures c.ids.turn != "" && !c.audio.pending ==> Parts(PollTurn(c, now, a))
  {
    if c.ids.turn == "" {
      LookupKeeps(c, now, a);
    } else {
      CancelTurnKeeps(c, now, a.cancel);
    }
    if c.audio.pending {
      DownloadKeeps(c, now, a);
    } else if c.ids.turn != "" {
      PollKeeps(c, now, a);
    }
  }

  lemma RequestCancelKeeps(c: Client, now: nat, io: Io)
    requires Parts(c)
    ensures Parts(RequestCancel(c, now, io))
  {
    hide Count, OnlySaved, Saved, CancelTurn;
    if c.result == Waiting {
      var d := c.(cancelRequested := true);
      FailKeeps(d);
      if c.ids.turn != "" && c.ops.Some? {
        CancelTurnKeeps(d, now, io);
      }
    }
  }

  lemma TakeKeeps(c: Client, played: bool)
    requires Parts(c)
    ensures Parts(TakeFollowUp(c, played))
  {
    hide Count, OnlySaved, Saved, AudioValid;
    var d := c.(followUp := false);
    NoteCounts(d, FollowUp(c.questionId));
    SavedNote(c.log, FollowUp(c.questionId));
  }

  /** A log of at most one event. */
  lemma ShortLog(log: seq<Event>)
    requires |log| <= 1
    ensures forall k: Kind :: Count(log, k) == if log != [] && Is(log[0], k) then 1 else 0
    ensures (forall e | e in log :: !UsesTurn(e)) ==> OnlySaved(log)
  {
    if log != [] {
      assert log[..|log| - 1] == [];
    }
  }

  lemma InitInv(ops: Option<Ops>, request: string, saved: string, now: nat)
    ensures Inv(Init(ops, request, saved, now))
  {
    hide IsUuid, AudioValid, Count, OnlySaved;
    var c := Init(ops, request, saved, now);
    ShortLog(c.log);
    if c.ids.turn != "" {
      assert c.log[0] == Given(c.ids.turn);
    }
  }

  lemma NextKeeps(c: Client, s: Step)
    requires Inv(c)
    ensures Inv(Next(c, s))
  {
    hide Parts, Tick, RequestCancel, TakeFollowUp;
    NextKeepsCancel(c, s);
    NextKeepsEarly(c, s);
    match s
    case TickAt(now, a) => TickKeeps(c, now, a);
    case CancelAt(now, io) => RequestCancelKeeps(c, now, io);
    case Take(played) => TakeKeeps(c, played);
  }

  lemma CancelledIsCancelling(c: Client)
    requires Inv(c) && c.cancelRequested
    ensures Cancelling(c)
  {
    hide Count, OnlySaved, Saved;
  }

  lemma NextKeepsCancel(c: Client, s: Step)
    requires Inv(c)
    ensures CancelInv(Next(c, s))
  {
    hide Parts, Cancelling, CancelTurn, DownloadAudio, LookupTurn, PollTurn, Finish, IsUuid;
    if c.cancelRequested {
      CancelledIsCancelling(c);
      CancellingNext(c, s);
      CancellingIsUnready(Next(c, s));
    } else if c.result == Waiting {
      NextKeepsTurn(c, s);
    }
  }

  lemma NextKeepsEarly(c: Client, s: Step)
    requires EarlyInv(c)
    ensures EarlyInv(Next(c, s))
  {
    hide Finish, CancelTurn, DownloadAudio, LookupTurn, PollTurn, IsUuid;
    FinishEffect(c, TurnFailed);
    FinishEffect(c.(error := Deadline), TurnFailed);
    FinishEffect(c.(cancelRequested := true), TurnCancelled);
    if c.ops.Some? && c.result == Waiting {
      match s
      case TickAt(now, a) => CallsKeepEarly(c, now, a);
      case CancelAt(now, io) => CancelKeepsEarly(c.(cancelRequested := true), now, io);
      case Take(_) =>
    }
  }

  lemma CallsKeepEarly(c: Client, now: nat, a: Answers)
    requires EarlyInv(c) && c.ops.Some?
    ensures EarlyInv(LookupTurn(c, now, a)) && EarlyInv(CancelTurn(c, now, a.cancel)) && EarlyInv(PollTurn(c, now, a))
    ensures c.audio.pending ==> EarlyInv(DownloadAudio(c, now, a))
  {
    hide Finish, Polled, CancelTurn, DownloadAudio, IsUuid;
    var d := Note(c, Lookup(c.ids.request));
    var e := d.(ids := d.ids.(turn := a.found.turnId));
    FinishEffect(c, TurnFailed);
    FinishEffect(d, TurnFailed);
    FinishEffect(e, TurnFailed);
    FinishEffect(Note(e, Save(a.found.turnId, a.save)), TurnFailed);
    CancelKeepsEarly(c, now, a.cancel);
    var polled := Note(c, Poll(c.ids.turn, a.poll, a.polled.status));
    FinishEffect(polled, TurnFailed);
    PolledKeepsEarly(polled.(retries := 0, status := a.polled.status, error := a.polled.error), now, a);
    if c.audio.pending {
      DownloadKeepsEarly(c, now, a);
    }
  }

  lemma CancelKeepsEarly(c: Client, now: nat, io: Io)
    requires EarlyInv(c) && c.ops.Some?
    ensures EarlyInv(CancelTurn(c, now, io))
  {
    hide Finish;
    FinishEffect(c, TurnCancelled);
    FinishEffect(Note(c, Cancel(c.ids.turn)), TurnCancelled);
  }

  lemma DownloadKeepsEarly(c: Client, now: nat, a: Answers)
    requires c.audio.pending && c.ops.Some?
    ensures EarlyInv(DownloadAudio(c, now, a))
  {
    hide Finish, AudioValid;
    var d := Note(c, Download(c.ids.turn, a.download, a.audio));
    FinishEffect(c, TurnFailed);
    FinishEffect(d, TurnFailed);
    FinishEffect(d.(audio := Audio(false, c.audio.early, true)), TurnReady);
  }

  lemma PolledKeepsEarly(c: Client, now: nat, a: Answers)
    requires EarlyInv(c) && c.ops.Some?
    ensures EarlyInv(Polled(c, now, a))
  {
    hide Finish, DownloadAudio, IsUuid, Pending;
    var r := a.polled;
    var listens := r.followUpListen && IsUuid(r.questionId);
    var d := c.(followUp := listens, questionId := if listens then r.questionId else c.questionId);
    FinishEffect(c, TurnFailed);
    FinishEffect(c, TurnCancelled);
    FinishEffect(d, TurnReady);
    DownloadKeepsEarly(c.(audio := c.audio.(early := true, pending := true)), now, a);
    DownloadKeepsEarly(d.(audio := d.audio.(pending := true)), now, a);
  }

  lemma {:induction false} RunKeeps(c: Client, steps: seq<Step>)
    requires Inv(c)
    ensures Inv(Run(c, steps))
    decreases |steps|
  {
    if steps != [] {
      NextKeeps(c, steps[0]);
      RunKeeps(Next(c, steps[0]), steps[1..]);
    }
  }

  // ---- what a call leaves alone ----

  lemma FinishEffect(c: Client, r: Result)
    ensures var d := Finish(c, r);
      && d.ops == c.ops && d.deadline == c.deadline && d.nextPoll == c.nextPoll && d.result == r
      && d.cancelRequested == c.cancelRequested && (d.log == c.log || d.log == c.log + [Clear])
  {
  }

  /** The same turn, with the same deadline; it does not end ready in a call that asks for its cancellation. */
  predicate Continues(c: Client, d: Client) {
    && d.ops == c.ops && d.deadline == c.deadline
    && (c.result == Waiting && d.result == TurnReady && d.cancelRequested ==> c.cancelRequested)
  }

  /** The effect of a callback made at `now`: unless the turn ends, the next one is at least a second away,
      or due at once when a download was cancelled. */
  predicate Called(c: Client, d: Client, now: nat, cancelled: bool) {
    && d.ops == c.ops && d.deadline == c.deadline && c.nextPoll <= d.nextPoll
    && (d.result == Waiting ==> d.nextPoll >= now + POLL_INTERVAL_MS || (cancelled && d.nextPoll == now))
  }

  lemma CancelEffect(c: Client, now: nat, io: Io)
    requires c.ops.Some?
    ensures var d := CancelTurn(c, now, io);
      && Continues(c, d) && (c.nextPoll <= now ==> Called(c, d, now, false))
      && (d.result == TurnCancelled || d.result == c.result)
  {
    hide Finish;
    FinishEffect(c, TurnCancelled);
    FinishEffect(Note(c, Cancel(c.ids.turn)), TurnCancelled);
  }

  lemma DownloadEffect(c: Client, now: nat, a: Answers)
    requires c.ops.Some?
    ensures var d := DownloadAudio(c, now, a);
      Continues(c, d) && (c.nextPoll <= now ==> Called(c, d, now, a.download == IoCancelled))
  {
    hide Finish, AudioValid;
    var d := Note(c, Download(c.ids.turn, a.download, a.audio));
    FinishEffect(c, TurnFailed);
    FinishEffect(d, TurnFailed);
    FinishEffect(d.(audio := Audio(false, c.audio.early, true)), TurnReady);
  }

  lemma LookupEffect(c: Client, now: nat, a: Answers)
    requires c.ops.Some?
    ensures var d := LookupTurn(c, now, a);
      Continues(c, d) && (c.nextPoll <= now ==> Called(c, d, now, false))
  {
    hide Finish, IsUuid;
    var d := Note(c, Lookup(c.ids.request));
    var e := d.(ids := d.ids.(turn := a.found.turnId));
    FinishEffect(c, TurnFailed);
    FinishEffect(d, TurnFailed);
    FinishEffect(e, TurnFailed);
    FinishEffect(Note(e, Save(a.found.turnId, a.save)), TurnFailed);
  }

  lemma PolledEffect(c: Client, now: nat, a: Answers)
    requires c.ops.Some?
    ensures var d := Polled(c, now, a);
      Continues(c, d) && (c.nextPoll <= now ==> Called(c, d, now, a.download == IoCancelled))
  {
    hide Finish, DownloadAudio, IsUuid, Pending;
    var r := a.polled;
    var listens := r.followUpListen && IsUuid(r.questionId);
    var d := c.(followUp := listens, questionId := if listens then r.questionId else c.questionId);
    FinishEffect(c, TurnFailed);
    FinishEffect(c, TurnCancelled);
    FinishEffect(d, TurnReady);
    DownloadEffect(c.(audio := c.audio.(early := true, pending := true)), now, a);
    DownloadEffect(d.(audio := d.audio.(pending := true)), now, a);
  }

  lemma PollEffect(c: Client, now: nat, a: Answers)
    requires c.ops.Some?
    ensures var d := PollTurn(c, now, a);
      Continues(c, d) && (c.nextPoll <= now ==> Called(c, d, now, a.download == IoCancelled))
  {
    hide Finish, Polled;
    var d := Note(c, Poll(c.ids.turn, a.poll, a.polled.status));
    FinishEffect(c, TurnFailed);
    FinishEffect(d, TurnFailed);
    PolledEffect(d.(retries := 0, status := a.polled.status, error := a.polled.error), now, a);
  }

  predicate Effect(c: Client, d: Client, now: nat, a: Answers) {
    Continues(c, d) && (c.nextPoll <= now ==> Called(c, d, now, a.download == IoCancelled))
  }

  lemma TickEffects(c: Client, now: nat, a: Answers)
    requires c.ops.Some?
    ensures Effect(c, CancelTurn(c, now, a.cancel), now, a) && Effect(c, DownloadAudio(c, now, a), now, a)
    ensures Effect(c, LookupTurn(c, now, a), now, a) && Effect(c, PollTurn(c, now, a), now, a)
  {
    hide CancelTurn, DownloadAudio, LookupTurn, PollTurn;
    CancelEffect(c, now, a.cancel);
    DownloadEffect(c, now, a);
    LookupEffect(c, now, a);
    PollEffect(c, now, a);
  }

  // ---- whole runs ----

  /** A turn started at `start`. */
  function Turn(ops: Option<Ops>, request: string, saved: string, start: nat, steps: seq<Step>): Client {
    Run(Init(ops, request, saved, start), steps)
  }

  /** A turn that ends ready was polled ready and fetched its sound once, well formed. */
  lemma ReadyMeansHeard(ops: Option<Ops>, request: string, saved: string, start: nat, steps: seq<Step>)
    requires Turn(ops, request, saved, start, steps).result == TurnReady
    ensures var log := Turn(ops, request, saved, start, steps).log;
      Count(log, ReadyPoll) > 0 && Count(log, OkDownload) == 1 && Count(log, GoodDownload) == 1
  {
    InitInv(ops, request, saved, start);
    RunKeeps(Init(ops, request, saved, start), steps);
  }

  /** The saved ids have been cleared once if the turn is over, and not at all before. */
  lemma ClearedOnce(ops: Option<Ops>, request: string, saved: string, start: nat, steps: seq<Step>)
    requires ops.Some? && ops.value.clear
    ensures var c := Turn(ops, request, saved, start, steps);
      Count(c.log, Clearing) == if c.result == Waiting then 0 else 1
  {
    InitInv(ops, request, saved, start);
    RunKeeps(Init(ops, request, saved, start), steps);
    RunKeepsOps(Init(ops, request, saved, start), steps);
  }

  lemma NextKeepsTurn(c: Client, s: Step)
    ensures Continues(c, Next(c, s))
  {
    hide CancelTurn, DownloadAudio, LookupTurn, PollTurn, Finish, IsUuid;
    var now := if s.TickAt? || s.CancelAt? then s.now else 0;
    var io := if s.CancelAt? then s.io else Ok;
    FinishEffect(c, TurnFailed);
    FinishEffect(c.(error := Deadline), TurnFailed);
    FinishEffect(c.(cancelRequested := true), TurnCancelled);
    if c.ops.Some? {
      CancelEffect(c.(cancelRequested := true), now, io);
      if s.TickAt? {
        TickEffects(c, now, s.a);
      }
    }
  }

  lemma {:induction false} RunKeepsOps(c: Client, steps: seq<Step>)
    ensures Run(c, steps).ops == c.ops && Run(c, steps).deadline == c.deadline
    decreases |steps|
  {
    if steps != [] {
      NextKeepsTurn(c, steps[0]);
      RunKeepsOps(Next(c, steps[0]), steps[1..]);
    }
  }

  /** No poll, download or cancel ever names a turn that was not saved first. */
  lemma OnlySavedTurns(ops: Option<Ops>, request: string, saved: string, start: nat, steps: seq<Step>)
    ensures OnlySaved(Turn(ops, request, saved, start, steps).log)
  {
    InitInv(ops, request, saved, start);
    RunKeeps(Init(ops, request, saved, start), steps);
  }

  /** A follow-up question is handed out at most once, and only by a turn that ended ready. */
  lemma FollowUpOnce(ops: Option<Ops>, request: string, saved: string, start: nat, steps: seq<Step>)
    ensures var c := Turn(ops, request, saved, start, steps);
      Count(c.log, Handing) <= 1 && (Count(c.log, Handing) == 1 ==> c.result == TurnReady)
  {
    InitInv(ops, request, saved, start);
    RunKeeps(Init(ops, request, saved, start), steps);
  }

  // ---- cancellation ----

  predicate Fetches(e: Event) {
    e.Poll? || e.Download?
  }

  /** `after` only adds to the log, and adds no poll and no download. */
  predicate AddsNoFetch(before: seq<Event>, after: seq<Event>) {
    before <= after && forall k | |before| <= k < |after| :: !Fetches(after[k])
  }

  /** A requested cancellation: nothing is being fetched unless the turn is known. */
  predicate Cancelling(c: Client) {
    c.cancelRequested && c.result != TurnReady && (c.result == Waiting && c.audio.pending ==> c.ids.turn != "")
  }

  lemma CancellingIsUnready(c: Client)
    requires Cancelling(c)
    ensures CancelInv(c) && c.cancelRequested
  {
  }

  lemma CancelTurnAdds(c: Client, now: nat, io: Io)
    requires c.ops.Some? && Cancelling(c) && c.result == Waiting
    ensures Cancelling(CancelTurn(c, now, io)) && AddsNoFetch(c.log, CancelTurn(c, now, io).log)
  {
    hide Finish;
    FinishEffect(c, TurnCancelled);
    FinishEffect(Note(c, Cancel(c.ids.turn)), TurnCancelled);
  }

  lemma LookupAdds(c: Client, now: nat, a: Answers)
    requires c.ops.Some? && Cancelling(c) && c.result == Waiting && c.ids.turn == ""
    ensures Cancelling(LookupTurn(c, now, a)) && AddsNoFetch(c.log, LookupTurn(c, now, a).log)
  {
    hide Finish, IsUuid;
    var d := Note(c, Lookup(c.ids.request));
    var e := d.(ids := d.ids.(turn := a.found.turnId));
    FinishEffect(c, TurnFailed);
    FinishEffect(d, TurnFailed);
    FinishEffect(e, TurnFailed);
    FinishEffect(Note(e, Save(a.found.turnId, a.save)), TurnFailed);
  }

  lemma CancellingNext(c: Client, s: Step)
    requires Cancelling(c)
    ensures Cancelling(Next(c, s)) && AddsNoFetch(c.log, Next(c, s).log)
  {
    hide CancelTurn, LookupTurn, DownloadAudio, PollTurn, Finish, IsUuid;
    FinishEffect(c, TurnFailed);
    FinishEffect(c.(error := Deadline), TurnFailed);
    FinishEffect(c.(cancelRequested := true), TurnCancelled);
    if c.ops.Some? && c.result == Waiting {
      match s
      case TickAt(now, a) =>
        CancelTurnAdds(c, now, a.cancel);
        if c.ids.turn == "" {
          LookupAdds(c, now, a);
        }
      case CancelAt(now, io) => CancelTurnAdds(c.(cancelRequested := true), now, io);
      case Take(_) =>
    }
  }

  lemma {:induction false} CancellingRun(c: Client, steps: seq<Step>)
    requires Cancelling(c)
    ensures Cancelling(Run(c, steps)) && AddsNoFetch(c.log, Run(c, steps).log)
    decreases |steps|
  {
    hide Cancelling, Next;
    if steps != [] {
      CancellingNext(c, steps[0]);
      CancellingRun(Next(c, steps[0]), steps[1..]);
    }
  }

  /** Once a cancellation is requested, nothing is polled or downloaded any more and the turn cannot end ready. */
  lemma CancelIsFinal(ops: Option<Ops>, request: string, saved: string, start: nat, steps: seq<Step>, more: seq<Step>)
    requires Turn(ops, request, saved, start, steps).cancelRequested
    ensures var c := Turn(ops, request, saved, start, steps);
      c.result != TurnReady && Run(c, more).result != TurnReady && AddsNoFetch(c.log, Run(c, more).log)
  {
    var c := Turn(ops, request, saved, start, steps);
    InitInv(ops, request, saved, start);
    RunKeeps(Init(ops, request, saved, start), steps);
    CancelledIsCancelling(c);
    CancellingRun(c, more);
  }

  /** What one tick promises. */
  ghost predicate TickPromise(c: Client, d: Client, now: nat) {
    && (c.result != Waiting ==> d == c)
    && (now >= c.deadline ==> d.result != Waiting)
    && (c.cancelRequested ==> d.cancelRequested && AddsNoFetch(c.log, d.log))
  }

  lemma TickPromises(c: Client, now: nat, a: Answers)
    requires Inv(c)
    ensures var d := Tick(c, now, a); Inv(d) && TickPromise(c, d, now)
  {
    hide Parts, CancelInv, AddsNoFetch, Cancelling, CancelTurn, DownloadAudio, LookupTurn, PollTurn;
    NextKeeps(c, TickAt(now, a));
    assert Tick(c, now, a) == Next(c, TickAt(now, a));
    if c.cancelRequested {
      CancelledIsCancelling(c);
      CancellingNext(c, TickAt(now, a));
      CancellingIsUnready(Next(c, TickAt(now, a)));
    }
  }

  /** What one request for a cancellation promises. */
  ghost predicate CancelPromise(c: Client, d: Client) {
    if c.result != Waiting then d == c else d.cancelRequested && AddsNoFetch(c.log, d.log)
  }

  lemma CancelPromises(c: Client, now: nat, io: Io)
    requires Inv(c)
    ensures var d := RequestCancel(c, now, io); Inv(d) && CancelPromise(c, d)
  {
    hide Parts, CancelTurn, Finish;
    NextKeeps(c, CancelAt(now, io));
    assert RequestCancel(c, now, io) == Next(c, CancelAt(now, io));
    if c.result == Waiting {
      var d := c.(cancelRequested := true);
      FinishEffect(d, TurnCancelled);
      AskedIsCancelling(c);
      if c.ops.Some? {
        CancelTurnAdds(d, now, io);
        CancelEffect(d, now, io);
      }
    }
  }

  lemma AskedIsCancelling(c: Client)
    requires Inv(c) && c.result == Waiting
    ensures Cancelling(c.(cancelRequested := true))
  {
    hide Count, OnlySaved, Saved;
  }

  /** A follow-up is only handed out by a turn that is ready and has handed out none. */
  lemma TakePromises(c: Client, played: bool)
    requires Inv(c)
    ensures Inv(TakeFollowUp(c, played))
    ensures FollowUpDue(c, played) ==> c.result == TurnReady && IsUuid(c.questionId) && Count(c.log, Handing) == 0
  {
    hide Count, OnlySaved, Saved, IsUuid;
    NextKeeps(c, Take(played));
    assert TakeFollowUp(c, played) == Next(c, Take(played));
  }

  // ---- time ----

  /** A tick that gets as far as a callback over the network. */
  predicate Reaches(c: Client, s: Step) {
    s.TickAt? && c.result == Waiting && c.ops.Some? && c.nextPoll <= s.now < c.deadline
  }

  function NetworkTicks(c: Client, steps: seq<Step>): nat
    decreases |steps|
  {
    if steps == [] then 0
    else (if Reaches(c, steps[0]) then 1 else 0) + NetworkTicks(Next(c, steps[0]), steps[1..])
  }

  predicate Uncancelled(steps: seq<Step>) {
    forall i | 0 <= i < |steps| :: !steps[i].CancelAt? && (steps[i].TickAt? ==> steps[i].a.download != IoCancelled)
  }

  /** A tick that goes nowhere calls nobody; one that does is followed by a second of silence. */
  lemma Spacing(c: Client, s: Step)
    requires !s.CancelAt? && (s.TickAt? ==> s.a.download != IoCancelled)
    ensures var d := Next(c, s);
      && d.nextPoll >= c.nextPoll && d.deadline == c.deadline
      && (Reaches(c, s) && d.result == Waiting ==> d.nextPoll >= s.now + POLL_INTERVAL_MS)
      && (c.result != Waiting ==> d.result == c.result)
      && (!Reaches(c, s) ==> forall k | |c.log| <= k < |d.log| :: d.log[k].Clear? || d.log[k].FollowUp?)
  {
    hide CancelTurn, DownloadAudio, LookupTurn, PollTurn, Finish, IsUuid;
    FinishEffect(c, TurnFailed);
    FinishEffect(c.(error := Deadline), TurnFailed);
    if s.TickAt? && c.ops.Some? {
      TickEffects(c, s.now, s.a);
    }
  }

  lemma {:induction false} TicksSpaced(c: Client, steps: seq<Step>)
    requires Uncancelled(steps)
    ensures NetworkTicks(c, steps) > 0 ==> c.nextPoll + POLL_INTERVAL_MS * (NetworkTicks(c, steps) - 1) < c.deadline
    ensures c.result != Waiting ==> NetworkTicks(c, steps) == 0
    decreases |steps|
  {
    hide Next;
    if steps != [] {
      Spacing(c, steps[0]);
      TicksSpaced(Next(c, steps[0]), steps[1..]);
    }
  }

  /** Without a cancellation at most 179 ticks reach the network, whatever the clock does. */
  lemma AtMost179Ticks(ops: Option<Ops>, request: string, saved: string, start: nat, steps: seq<Step>)
    requires Uncancelled(steps)
    ensures NetworkTicks(Init(ops, request, saved, start), steps) <= 179
  {
    hide IsUuid;
    TicksSpaced(Init(ops, request, saved, start), steps);
  }

  /** Whatever has happened, a tick three minutes after the start ends the turn. */
  lemma DeadlineEnds(ops: Option<Ops>, request: string, saved: string, start: nat, steps: seq<Step>, now: nat,
                     a: Answers)
    requires now >= start + DEADLINE_MS
    ensures Tick(Turn(ops, request, saved, start, steps), now, a).result != Waiting
  {
    hide IsUuid;
    RunKeepsOps(Init(ops, request, saved, start), steps);
  }

  /** When a cancel request leaves a turn waiting: no turn is known yet, or an earlier request is not due for
      its retry, or the call-off is to be retried. */
  predicate CancelPending(c: Client, now: nat, io: Io) {
    || c.ids.turn == ""
    || (c.cancelRequested && now < c.nextPoll)
    || (c.ops.Some? && c.ops.value.cancel && io == Retry)
  }

  /** The deadline has no part in it: exactly these requests go on waiting, however late they are. */
  lemma CancelWaitsIff(c: Client, now: nat, io: Io)
    requires c.result == Waiting
    ensures RequestCancel(c, now, io).result == Waiting <==> CancelPending(c, now, io)
  {
  }

  /** So a request past the deadline may still call out and go on waiting. */
  lemma CancelPastDeadline(ops: Ops, request: string, turn: string, start: nat, now: nat)
    requires IsUuid(request) && IsUuid(turn) && ops.cancel && now >= start + DEADLINE_MS
    ensures var c := Turn(Some(ops), request, turn, start, [CancelAt(now, Retry)]);
      c.result == Waiting && c.log == [Given(turn), Cancel(turn)]
  {
    var c := Init(Some(ops), request, turn, start);
    var steps := [CancelAt(now, Retry)];
    assert steps[1..] == [] && Run(Next(c, steps[0]), []) == Next(c, steps[0]);
    assert turn != "";
  }
}
