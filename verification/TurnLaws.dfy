/** What a turn comes to, said by what its callbacks answer: when it ends and how, when it goes on, and when it
    is asked about next. */
module TurnLaws {
  import opened Options
  import opened TurnClient

  // ---- what comes back ----

  predicate SameLetter(ch: char, lower: char) {
    ch == lower || ('a' <= lower <= 'z' && ch as int == lower as int - 32)
  }

  predicate Blanks(s: string, from: nat) {
    forall k | from <= k < |s| :: s[k] == ' ' || s[k] == '\t'
  }

  /** The media type in any case, then nothing but blanks, or parameters at once. */
  predicate TypeIs(s: string, expected: string) {
    && |s| >= |expected| && (forall k | 0 <= k < |expected| :: SameLetter(s[k], expected[k]))
    && (Blanks(s, |expected|) || s[|expected|] == ';')
  }

  lemma {:induction false} TrimMeans(s: string)
    ensures Blanks(s, |Trim(s)|) && (Trim(s) != "" ==> !Blanks(Trim(s), |Trim(s)| - 1))
  {
    if s != "" && (s[|s| - 1] == ' ' || s[|s| - 1] == '\t') {
      TrimMeans(s[..|s| - 1]);
      var t := Trim(s);
      forall k | |t| <= k < |s|
        ensures s[k] == ' ' || s[k] == '\t'
      {
        if k < |s| - 1 {
          assert s[..|s| - 1][k] == s[k];
        }
      }
    }
  }

  lemma LowerMeans(s: string, expected: string)
    requires |s| == |expected| && forall k | 0 <= k < |expected| :: !('A' <= expected[k] <= 'Z')
    ensures LowerAll(s) == expected <==> forall k | 0 <= k < |s| :: SameLetter(s[k], expected[k])
  {
    assert forall k | 0 <= k < |s| :: Lower(s[k]) == expected[k] <==> SameLetter(s[k], expected[k]);
    if forall k | 0 <= k < |s| :: SameLetter(s[k], expected[k]) {
      assert forall k | 0 <= k < |s| :: LowerAll(s)[k] == expected[k];
    }
    if LowerAll(s) == expected {
      assert forall k | 0 <= k < |s| :: Lower(s[k]) == expected[k];
    }
  }

  lemma MediaMeans(s: string, expected: string)
    requires expected != "" && forall k | 0 <= k < |expected| :: !('A' <= expected[k] <= 'Z') && expected[k] > ' '
    ensures IsMedia(s, expected) <==> TypeIs(s, expected)
  {
    var t, n := Trim(s), |expected|;
    TrimMeans(s);
    if |t| >= n {
      LowerMeans(t[..n], expected);
      assert forall k | 0 <= k < n :: t[..n][k] == s[k];
      if |t| > n {
        assert t[n] == s[n];
        assert !Blanks(s, n) by {
          assert s[|t| - 1] == t[|t| - 1];
        }
      } else {
        assert Blanks(s, n);
      }
    } else if |s| >= n {
      assert !SameLetter(s[n - 1], expected[n - 1]);
    }
  }

  /** Good sound: complete, 24 kHz mono of 16 bits, as WAV or as MPEG. */
  predicate Sound(r: Response) {
    && r.httpStatus == 200 && r.sampleRate == 24000 && r.channels == 1 && r.bitsPerSample == 16
    && (TypeIs(r.contentType, "audio/wav") || TypeIs(r.contentType, "audio/mpeg"))
  }

  lemma SoundMeans(r: Response)
    ensures AudioValid(r) <==> Sound(r)
  {
    var s := r.contentType;
    MediaMeans(s, MPEG);
    MediaMeans(s, WAV);
    if |s| >= 10 {
      LowerMeans(s[..10], MPEG);
      if TypeIs(s, WAV) {
        assert SameLetter(s[6], 'w');
      }
    }
  }

  /** The wait doubles from a second and stays at five. */
  lemma DelayDoubles(attempts: nat)
    ensures RetryDelay(0) == 1000
    ensures RetryDelay(attempts + 1) == if 2 * RetryDelay(attempts) < 5000 then 2 * RetryDelay(attempts) else 5000
  {
  }

  // ---- how a tick ends the turn ----

  /** A turn asked to be cancelled that is known to the gateway. */
  predicate CallingOff(c: Client) {
    c.cancelRequested && c.ids.turn != ""
  }

  predicate Due(c: Client, now: nat) {
    c.result == Waiting && c.ops.Some? && c.nextPoll <= now < c.deadline
  }

  predicate SoundComes(c: Client, a: Answers)
    requires c.ops.Some?
  {
    c.ops.value.download && a.download == Ok && Sound(a.audio)
  }

  predicate SoundMayCome(c: Client, a: Answers)
    requires c.ops.Some?
  {
    c.ops.value.download && (a.download == Retry || a.download == IoCancelled)
  }

  /** The gateway answered, and its stream was not consumed by someone else. */
  predicate Told(c: Client, a: Answers)
    requires c.ops.Some?
  {
    c.ops.value.poll && a.poll == Ok && (a.polled.streamConsumed ==> c.audio.downloaded)
  }

  /** The turn is ready, and its sound was there already or comes now. */
  predicate EndsReady(c: Client, now: nat, a: Answers) {
    && Due(c, now) && !CallingOff(c) && c.ids.turn != ""
    && if c.audio.pending then SoundComes(c, a)
       else Told(c, a) && a.polled.status == Ready && (c.audio.downloaded || SoundComes(c, a))
  }

  /** The turn was called off here, or on the other side. */
  predicate EndsCancelled(c: Client, now: nat, a: Answers) {
    && Due(c, now) && c.ids.turn != ""
    && if c.cancelRequested then c.ops.value.cancel ==> a.cancel != Retry
       else !c.audio.pending && Told(c, a) && a.polled.status == Cancelled
  }

  /** Nothing is decided yet. */
  predicate GoesOn(c: Client, a: Answers)
    requires c.ops.Some?
  {
    if CallingOff(c) then c.ops.value.cancel && a.cancel == Retry
    else if c.ids.turn == "" then
      c.ops.value.lookup &&
      (a.lookup == Retry || (a.lookup == Ok && IsUuid(a.found.turnId) && c.ops.value.save && a.save))
    else if c.audio.pending then SoundMayCome(c, a)
    else
      || (c.ops.value.poll && a.poll == Retry)
      || (Told(c, a) &&
          match a.polled.status
          case Queued => true
          case Running => true
          case Transcribing => true
          case Thinking => true
          case Synthesizing =>
            c.audio.downloaded || !a.polled.streamReady || SoundComes(c, a)
            || (c.ops.value.download && a.download == IoCancelled)
          case Ready => !c.audio.downloaded && SoundMayCome(c, a)
          case _ => false)
  }

  lemma FinishResult(c: Client, r: Result)
    ensures var d := Finish(c, r);
      && d.result == r && d.status == c.status && d.followUp == c.followUp && d.questionId == c.questionId
      && d.error == if r == TurnFailed && c.error == NoError then UnknownError else c.error
  {
  }

  lemma FetchOutcome(c: Client, now: nat, a: Answers)
    requires c.ops.Some? && c.result == Waiting
    ensures var r := DownloadAudio(c, now, a).result;
      && (r == TurnReady <==> SoundComes(c, a) && !c.audio.early)
      && (r == Waiting <==> (SoundComes(c, a) && c.audio.early)
                            || (SoundMayCome(c, a) && (c.audio.early ==> a.download == IoCancelled)))
      && r != TurnCancelled
  {
    hide AudioValid, Sound, Finish;
    SoundMeans(a.audio);
    var d := Note(c, Download(c.ids.turn, a.download, a.audio));
    FinishResult(c, TurnFailed);
    FinishResult(d, TurnFailed);
    FinishResult(d.(audio := Audio(false, c.audio.early, true)), TurnReady);
  }

  lemma PollOutcome(c: Client, now: nat, a: Answers)
    requires Inv(c) && Due(c, now) && c.ids.turn != "" && !c.audio.pending && !c.cancelRequested
    ensures var r := PollTurn(c, now, a).result;
      && (r == TurnReady <==> EndsReady(c, now, a)) && (r == TurnCancelled <==> EndsCancelled(c, now, a))
      && (r == Waiting <==> GoesOn(c, a))
  {
    hide Parts, CancelInv, Sound, DownloadAudio, IsUuid, Finish;
    var r := a.polled;
    var d := Note(c, Poll(c.ids.turn, a.poll, r.status)).(retries := 0, status := r.status, error := r.error);
    FinishResult(c, TurnFailed);
    FinishResult(Note(c, Poll(c.ids.turn, a.poll, r.status)), TurnFailed);
    FinishResult(d, TurnFailed);
    FinishResult(d, TurnCancelled);
    FetchOutcome(d.(audio := d.audio.(early := true, pending := true)), now, a);
    var listens := r.followUpListen && IsUuid(r.questionId);
    var e := d.(followUp := listens, questionId := if listens then r.questionId else d.questionId);
    FinishResult(e, TurnReady);
    FetchOutcome(e.(audio := e.audio.(pending := true)), now, a);
  }

  /** How a waiting turn stands after a tick before its deadline. It ends ready exactly when its sound is there
      and it was told so, cancelled exactly when someone called it off, and goes on exactly while nothing is
      decided; in every other case it has failed. */
  lemma TickOutcome(c: Client, now: nat, a: Answers)
    requires Inv(c) && c.result == Waiting && c.ops.Some? && now < c.deadline
    ensures var r := Tick(c, now, a).result;
      && (r == TurnReady <==> EndsReady(c, now, a)) && (r == TurnCancelled <==> EndsCancelled(c, now, a))
      && (r == Waiting <==> now < c.nextPoll || GoesOn(c, a))
  {
    hide Sound, DownloadAudio, IsUuid, Finish, PollTurn, AudioValid, Count;
    FinishResult(c, TurnCancelled);
    FinishResult(Note(c, Cancel(c.ids.turn)), TurnCancelled);
    var d := Note(c, Lookup(c.ids.request));
    var e := d.(ids := d.ids.(turn := a.found.turnId));
    FinishResult(c, TurnFailed);
    FinishResult(d, TurnFailed);
    FinishResult(e, TurnFailed);
    FinishResult(Note(e, Save(a.found.turnId, a.save)), TurnFailed);
    FetchOutcome(c, now, a);
    if c.nextPoll <= now && c.ids.turn != "" && !c.audio.pending && !c.cancelRequested {
      PollOutcome(c, now, a);
    }
  }

  // ---- while it goes on ----

  /** Which call, if any, is to be made again later. */
  predicate AskAgain(c: Client, a: Answers) {
    if CallingOff(c) then a.cancel == Retry
    else if c.ids.turn == "" then a.lookup == Retry
    else if c.audio.pending then a.download == Retry
    else a.poll == Retry
  }

  predicate SoundPutOff(c: Client, a: Answers, io: Io) {
    !CallingOff(c) && c.ids.turn != "" && a.download == io
    && (c.audio.pending || (a.poll == Ok && !c.audio.downloaded
                            && (a.polled.status == Ready || (a.polled.streamReady && a.polled.status == Synthesizing))))
  }

  lemma FetchSays(c: Client, now: nat, a: Answers)
    requires c.ops.Some? && c.result == Waiting
    ensures var d := DownloadAudio(c, now, a);
      && d.status == c.status && d.followUp == c.followUp && d.questionId == c.questionId
      && d.error == (if d.result == TurnFailed && c.error == NoError then UnknownError else c.error)
      && (d.result == Waiting ==>
            && d.nextPoll == now + (if a.download == Retry then RetryDelay(c.retries)
                                    else if a.download == IoCancelled then 0 else 1000)
            && d.retries == (if a.download == Retry then c.retries + 1 else c.retries)
            && (d.cancelRequested <==> c.cancelRequested || a.download == IoCancelled))
  {
    hide AudioValid, Finish, RetryDelay;
    var d := Note(c, Download(c.ids.turn, a.download, a.audio));
    FinishResult(c, TurnFailed);
    FinishResult(d, TurnFailed);
    FinishResult(d.(audio := Audio(false, c.audio.early, true)), TurnReady);
  }

  lemma PolledSays(c: Client, now: nat, a: Answers)
    requires c.ops.Some? && c.result == Waiting && c.retries == 0
    ensures var d, starts := Polled(c, now, a), !c.audio.downloaded &&
        (a.polled.status == Ready || (a.polled.streamReady && a.polled.status == Synthesizing));
      && d.status == c.status
      && d.error == (if d.result == TurnFailed && c.error == NoError then UnknownError else c.error)
      && (d.result == TurnReady ==>
            && (d.followUp <==> a.polled.followUpListen && IsUuid(a.polled.questionId))
            && (d.followUp ==> d.questionId == a.polled.questionId))
      && (d.result == Waiting ==>
            && d.nextPoll == (if starts && a.download == IoCancelled then now else now + 1000)
            && d.retries == (if starts && a.download == Retry then 1 else 0)
            && (d.cancelRequested <==> c.cancelRequested || (starts && a.download == IoCancelled)))
  {
    hide DownloadAudio, IsUuid, Finish;
    var r := a.polled;
    var listens := r.followUpListen && IsUuid(r.questionId);
    var d := c.(followUp := listens, questionId := if listens then r.questionId else c.questionId);
    FinishResult(c, TurnFailed);
    FinishResult(c, TurnCancelled);
    FinishResult(d, TurnReady);
    var early := c.(audio := c.audio.(early := true, pending := true));
    assert early.audio.early;
    FetchOutcome(early, now, a);
    FetchSays(early, now, a);
    FetchSays(d.(audio := d.audio.(pending := true)), now, a);
    DelayDoubles(0);
  }

  lemma PollSays(c: Client, now: nat, a: Answers)
    requires c.ops.Some? && c.result == Waiting && !CallingOff(c) && c.ids.turn != "" && !c.audio.pending
    ensures var d := PollTurn(c, now, a);
      && (d.result == TurnFailed ==> d.error != NoError)
      && (c.ops.value.poll && a.poll == Ok ==>
            && d.status == a.polled.status
            && (d.result == TurnFailed ==>
                  d.error == if a.polled.error == NoError then UnknownError else a.polled.error)
            && (d.result == TurnReady ==>
                  && (d.followUp <==> a.polled.followUpListen && IsUuid(a.polled.questionId))
                  && (d.followUp ==> d.questionId == a.polled.questionId)))
      && (d.result == Waiting ==>
            && d.nextPoll == (if a.poll == Retry then now + RetryDelay(c.retries)
                              else if SoundPutOff(c, a, IoCancelled) then now else now + 1000)
            && d.retries == (if a.poll == Retry then c.retries + 1 else if SoundPutOff(c, a, Retry) then 1 else 0)
            && (d.cancelRequested <==> c.cancelRequested || (a.poll != Retry && SoundPutOff(c, a, IoCancelled))))
  {
    hide Polled, IsUuid, Finish, RetryDelay, Pending;
    var d := Note(c, Poll(c.ids.turn, a.poll, a.polled.status));
    FinishResult(c, TurnFailed);
    FinishResult(d, TurnFailed);
    PolledSays(d.(retries := 0, status := a.polled.status, error := a.polled.error), now, a);
  }

  lemma LookupSays(c: Client, now: nat, a: Answers)
    requires c.ops.Some? && c.result == Waiting
    ensures var d := LookupTurn(c, now, a);
      && (d.result == TurnFailed ==> d.error != NoError)
      && (d.result == Waiting ==>
            && d.nextPoll == (if a.lookup == Retry then now + RetryDelay(c.retries) else now + 1000)
            && d.retries == (if a.lookup == Retry then c.retries + 1 else 0) && d.cancelRequested == c.cancelRequested
            && (a.lookup != Retry ==>
                  && d.ids.turn == a.found.turnId && d.status == a.found.status && d.error == a.found.error
                  && Saved(d.log, a.found.turnId)))
  {
    hide IsUuid, Finish, RetryDelay;
    var d := Note(c, Lookup(c.ids.request));
    var e := d.(ids := d.ids.(turn := a.found.turnId));
    FinishResult(c, TurnFailed);
    FinishResult(d, TurnFailed);
    FinishResult(e, TurnFailed);
    var f := Note(e, Save(a.found.turnId, a.save));
    FinishResult(f, TurnFailed);
    assert f.log[|e.log|] == Save(a.found.turnId, a.save);
  }

  lemma CancelSays(c: Client, now: nat, io: Io)
    requires c.ops.Some? && c.result == Waiting
    ensures var d := CancelTurn(c, now, io);
      && (d.result == Waiting || d.result == TurnCancelled)
      && (d.result == Waiting ==>
            && io == Retry && d.nextPoll == now + RetryDelay(c.retries) && d.retries == c.retries + 1
            && d.cancelRequested == c.cancelRequested)
  {
    hide Finish, RetryDelay;
    FinishResult(c, TurnCancelled);
    FinishResult(Note(c, Cancel(c.ids.turn)), TurnCancelled);
  }

  /** A turn that goes on is asked about again after the wait for its failed attempts in a row, at once when
      the user cancelled its download, and after a second otherwise; then the attempts start anew. */
  lemma NextTime(c: Client, now: nat, a: Answers)
    requires Inv(c) && Due(c, now) && Tick(c, now, a).result == Waiting
    ensures var d := Tick(c, now, a);
      && d.nextPoll == (if AskAgain(c, a) then now + RetryDelay(c.retries)
                        else if SoundPutOff(c, a, IoCancelled) then now else now + 1000)
      && d.retries == (if AskAgain(c, a) then c.retries + 1
                       else if c.audio.pending then c.retries
                       else if SoundPutOff(c, a, Retry) then 1 else 0)
      && (d.cancelRequested <==> c.cancelRequested || (!AskAgain(c, a) && SoundPutOff(c, a, IoCancelled)))
  {
    hide CancelTurn, DownloadAudio, LookupTurn, PollTurn, RetryDelay, Count, OnlySaved, Saved, IsUuid;
    CancelSays(c, now, a.cancel);
    FetchSays(c, now, a);
    LookupSays(c, now, a);
    if !CallingOff(c) && c.ids.turn != "" && !c.audio.pending {
      PollSays(c, now, a);
    }
  }

  /** What a tick leaves in the turn for its owner: the status and error of the last answer, the id found and
      saved, and the question asked with a ready answer. */
  lemma LeftBehind(c: Client, now: nat, a: Answers)
    requires Inv(c) && Due(c, now) && !CallingOff(c) && !c.audio.pending
    ensures var d := Tick(c, now, a);
      && (c.ids.turn == "" && d.result == Waiting && a.lookup == Ok ==>
            && d.ids.turn == a.found.turnId && d.status == a.found.status && d.error == a.found.error
            && Saved(d.log, a.found.turnId))
      && (c.ids.turn != "" && c.ops.value.poll && a.poll == Ok ==>
            && d.status == a.polled.status
            && (d.result == TurnFailed ==>
                  d.error == if a.polled.error == NoError then UnknownError else a.polled.error)
            && (d.result == TurnReady ==>
                  && (d.followUp <==> a.polled.followUpListen && IsUuid(a.polled.questionId))
                  && (d.followUp ==> d.questionId == a.polled.questionId)))
  {
    hide LookupTurn, PollTurn, RetryDelay, Count, OnlySaved, Saved, IsUuid;
    LookupSays(c, now, a);
    if c.ids.turn != "" {
      PollSays(c, now, a);
    }
  }

  /** A turn that failed has a reason: the deadline when it is past. */
  lemma FailedWhy(c: Client, now: nat, a: Answers)
    requires c.result == Waiting && Tick(c, now, a).result == TurnFailed
    ensures Tick(c, now, a).error != NoError
    ensures now >= c.deadline ==> Tick(c, now, a).error == Deadline
  {
    hide CancelTurn, DownloadAudio, LookupTurn, PollTurn, Finish, IsUuid;
    FinishResult(c, TurnFailed);
    FinishResult(c.(error := Deadline), TurnFailed);
    if c.ops.Some? {
      CancelSays(c, now, a.cancel);
      FetchSays(c, now, a);
      LookupSays(c, now, a);
      if !CallingOff(c) && c.ids.turn != "" && !c.audio.pending {
        PollSays(c, now, a);
      }
    }
  }

  /** The log of `d` starts with that of `c`, and then `e`. */
  predicate CalledFirst(c: Client, d: Client, e: Event) {
    c.log + [e] <= d.log
  }

  lemma FetchCalls(c: Client, now: nat, a: Answers)
    requires c.ops.Some?
    ensures var d := DownloadAudio(c, now, a);
      c.log <= d.log && (c.ops.value.download ==> CalledFirst(c, d, Download(c.ids.turn, a.download, a.audio)))
  {
    hide Finish, AudioValid, RetryDelay;
    var d := Note(c, Download(c.ids.turn, a.download, a.audio));
    FinishEffect(c, TurnFailed);
    FinishEffect(d, TurnFailed);
    FinishEffect(d.(audio := Audio(false, c.audio.early, true)), TurnReady);
  }

  lemma PolledCalls(c: Client, now: nat, a: Answers)
    requires c.ops.Some?
    ensures c.log <= Polled(c, now, a).log
  {
    hide Finish, DownloadAudio, IsUuid, Pending;
    var r := a.polled;
    var listens := r.followUpListen && IsUuid(r.questionId);
    var d := c.(followUp := listens, questionId := if listens then r.questionId else c.questionId);
    FinishEffect(c, TurnFailed);
    FinishEffect(c, TurnCancelled);
    FinishEffect(d, TurnReady);
    FetchCalls(c.(audio := c.audio.(early := true, pending := true)), now, a);
    FetchCalls(d.(audio := d.audio.(pending := true)), now, a);
  }

  lemma OtherCalls(c: Client, now: nat, a: Answers)
    requires c.ops.Some?
    ensures c.ops.value.poll ==> CalledFirst(c, PollTurn(c, now, a), Poll(c.ids.turn, a.poll, a.polled.status))
    ensures c.ops.value.lookup ==> CalledFirst(c, LookupTurn(c, now, a), Lookup(c.ids.request))
    ensures c.ops.value.cancel ==> CalledFirst(c, CancelTurn(c, now, a.cancel), Cancel(c.ids.turn))
  {
    hide Finish, Polled, IsUuid, RetryDelay;
    var polled := Note(c, Poll(c.ids.turn, a.poll, a.polled.status));
    FinishEffect(polled, TurnFailed);
    PolledCalls(polled.(retries := 0, status := a.polled.status, error := a.polled.error), now, a);
    var d := Note(c, Lookup(c.ids.request));
    var e := d.(ids := d.ids.(turn := a.found.turnId));
    FinishEffect(d, TurnFailed);
    FinishEffect(e, TurnFailed);
    FinishEffect(Note(e, Save(a.found.turnId, a.save)), TurnFailed);
    FinishEffect(Note(c, Cancel(c.ids.turn)), TurnCancelled);
  }

  /** Whom a due tick calls first, and with which id: a turn asked to be cancelled is called off, an unknown one
      looked up, and of a known one the sound is fetched that is due, or else its status. */
  lemma WhomItCalls(c: Client, now: nat, a: Answers)
    requires Due(c, now)
    ensures var d, ops := Tick(c, now, a), c.ops.value;
      if CallingOff(c) then ops.cancel ==> CalledFirst(c, d, Cancel(c.ids.turn))
      else if c.audio.pending then ops.download ==> CalledFirst(c, d, Download(c.ids.turn, a.download, a.audio))
      else if c.ids.turn == "" then ops.lookup ==> CalledFirst(c, d, Lookup(c.ids.request))
      else ops.poll ==> CalledFirst(c, d, Poll(c.ids.turn, a.poll, a.polled.status))
  {
    hide CancelTurn, DownloadAudio, LookupTurn, PollTurn, CalledFirst;
    FetchCalls(c, now, a);
    OtherCalls(c, now, a);
  }

  /** Past the deadline, or without callbacks, a waiting turn fails. */
  lemma NeverLate(c: Client, now: nat, a: Answers)
    requires c.result == Waiting && (c.ops.None? || now >= c.deadline)
    ensures Tick(c, now, a).result == TurnFailed
  {
    hide Finish;
    FinishResult(c, TurnFailed);
    FinishResult(c.(error := Deadline), TurnFailed);
  }

  /** Before its time nothing happens, and a turn that is over stays as it is. */
  lemma NotDue(c: Client, now: nat, a: Answers)
    requires c.result != Waiting || (c.ops.Some? && now < c.deadline && now < c.nextPoll)
    ensures Tick(c, now, a) == c
  {
  }

  // ---- the beginning ----

  /** A turn starts unless it has no callbacks or a bad id, and is asked about after a second. */
  lemma StartsIff(ops: Option<Ops>, request: string, saved: string, now: nat)
    ensures var c := Init(ops, request, saved, now);
      if ops.Some? && IsUuid(request) && (saved == "" || IsUuid(saved)) then
        && c.result == Waiting && c.ids.request == request && c.ids.turn == saved
        && c.nextPoll == now + 1000 && c.deadline == now + 180000
      else c.result == TurnFailed && c.ids.request == "" && c.ids.turn == ""
  {
    hide IsUuid;
  }
}
