/** The client object itself: fields changed step by step around its callbacks, proved to follow the value
    machine of TurnClient. The ghost log records every callback made. */
module TurnMachine {
  import opened Options
  import opened TurnClient
  import TurnLaws

  class Machine {
    const ops: Option<Ops>
    var answers: Answers    // what the callbacks answer when they are next called
    var requestId: string
    var turnId: string
    var deadline: nat
    var nextPoll: nat
    var retries: nat
    var result: Result
    var status: Status
    var audioPending: bool
    var audioEarly: bool
    var audioDownloaded: bool
    var cancelRequested: bool
    var idsCleared: bool
    var error: Error
    var followUp: bool
    var questionId: string
    ghost var log: seq<Event>

    /** The value machine this object stands for. */
    ghost function State(): Client
      reads this
    {
      Client(ops, Ids(requestId, turnId, idsCleared), deadline, nextPoll, retries, result, status,
             Audio(audioPending, audioEarly, audioDownloaded), cancelRequested, error, followUp, questionId, log)
    }

    /** The invariant of the value machine: one download at most, ids cleared once, no id used unsaved, one
        follow-up at most, and no ready end once cancelled. */
    ghost predicate Valid()
      reads this
    {
      Inv(State())
    }

    constructor (ops: Option<Ops>, request: string, saved: string, now: nat, answers: Answers)
      ensures State() == Init(ops, request, saved, now) && this.ops == ops
      ensures Valid() && deadline == now + DEADLINE_MS
      ensures result == (if ops.Some? && IsUuid(request) && (saved == "" || IsUuid(saved)) then Waiting else TurnFailed)
    {
      this.ops, this.answers := ops, answers;
      requestId, turnId, result, status := "", "", Waiting, Queued;
      deadline, nextPoll, retries := now + DEADLINE_MS, now + POLL_INTERVAL_MS, 0;
      audioPending, audioEarly, audioDownloaded := false, false, false;
      cancelRequested, idsCleared, error := false, false, NoError;
      followUp, questionId, log := false, "", [];
      new;
      hide Begin, Inv;
      Start(request, saved);
      InitInv(ops, request, saved, now);
      BeginDeadline(Blank(ops, now), request, saved);
      TurnLaws.StartsIff(ops, request, saved, now);
    }

    static lemma BeginDeadline(c: Client, request: string, saved: string)
      ensures Begin(c, request, saved).deadline == c.deadline
    {
      hide IsUuid;
    }

    method Start(request: string, saved: string)
      modifies this
      ensures State() == Begin(old(State()), request, saved)
    {
      hide ClearIds, IsUuid;
      if ops.Some? && IsUuid(request) {
        requestId := request;
        if saved == "" {
          return;
        }
        if IsUuid(saved) {
          turnId, log := saved, log + [Given(saved)];
          return;
        }
      }
      result := TurnFailed;
      DropIds();
    }

    method DropIds()
      modifies this`idsCleared, this`requestId, this`turnId, this`log
      ensures State() == ClearIds(old(State()))
    {
      if !idsCleared && ops.Some? && ops.value.clear {
        log := log + [Clear];
        idsCleared := true;
      }
      requestId, turnId := "", "";
    }

    method End(r: Result) returns (out: Result)
      modifies this`result, this`error, this`idsCleared, this`requestId, this`turnId, this`log
      ensures State() == Finish(old(State()), r) && out == r == result && answers == old(answers)
    {
      hide ClearIds;
      result := r;
      if r == TurnFailed && error == NoError {
        error := UnknownError;
      }
      DropIds();
      out := r;
    }

    method Postpone(now: nat) returns (out: Result)
      modifies this`nextPoll, this`retries
      ensures State() == RetryLater(old(State()), now) && out == Waiting
    {
      nextPoll := now + RetryDelay(retries);
      retries := retries + 1;
      out := Waiting;
    }

    method FetchAudio(now: nat) returns (out: Result)
      requires ops.Some? && result == Waiting
      modifies this
      ensures State() == DownloadAudio(old(State()), now, old(answers)) && out == result && answers == old(answers)
    {
      hide Finish, RetryLater, AudioValid;
      if !ops.value.download {
        out := End(TurnFailed);
        return;
      }
      var io, audio := answers.download, answers.audio;
      log := log + [Download(turnId, io, audio)];
      if io == IoCancelled {
        cancelRequested, nextPoll, out := true, now, Waiting;
        return;
      }
      if io == Retry {
        if audioEarly {
          out := End(TurnFailed);
        } else {
          out := Postpone(now);
          assert result == Waiting;
        }
        return;
      }
      if io != Ok || !AudioValid(audio) {
        out := End(TurnFailed);
        return;
      }
      audioPending, audioDownloaded := false, true;
      if audioEarly {
        nextPoll, out := now + POLL_INTERVAL_MS, Waiting;
        return;
      }
      out := End(TurnReady);
    }

    method CallOff(now: nat) returns (out: Result)
      requires ops.Some? && result == Waiting
      modifies this
      ensures State() == CancelTurn(old(State()), now, old(answers).cancel) && out == result && answers == old(answers)
    {
      hide Finish, RetryLater;
      if !ops.value.cancel {
        out := End(TurnCancelled);
        return;
      }
      var io := answers.cancel;
      log := log + [Cancel(turnId)];
      if io == Retry {
        out := Postpone(now);
      } else {
        out := End(TurnCancelled);
      }
    }

    method FindTurn(now: nat) returns (out: Result)
      requires ops.Some? && result == Waiting
      modifies this
      ensures State() == LookupTurn(old(State()), now, old(answers)) && out == result && answers == old(answers)
    {
      hide Finish, RetryLater, IsUuid;
      if !ops.value.lookup {
        out := End(TurnFailed);
        return;
      }
      var io, found := answers.lookup, answers.found;
      log := log + [Lookup(requestId)];
      if io == Retry {
        out := Postpone(now);
        return;
      }
      if io != Ok || !IsUuid(found.turnId) {
        out := End(TurnFailed);
        return;
      }
      turnId := found.turnId;
      out := KeepTurn(now, found);
    }

    /** Save the id of a turn just found. */
    method KeepTurn(now: nat, found: Response) returns (out: Result)
      requires ops.Some? && result == Waiting && found == answers.found
      modifies this
      ensures State() == (
        if !ops.value.save then Finish(old(State()), TurnFailed)
        else
          var f := Note(old(State()), Save(old(turnId), old(answers).save));
          if !old(answers).save then Finish(f, TurnFailed)
          else f.(retries := 0, status := found.status, error := found.error, nextPoll := now + POLL_INTERVAL_MS))
      ensures out == result && answers == old(answers)
    {
      hide Finish;
      if !ops.value.save {
        out := End(TurnFailed);
        return;
      }
      log := log + [Save(turnId, answers.save)];
      if !answers.save {
        out := End(TurnFailed);
        return;
      }
      retries, status, error := 0, found.status, found.error;
      nextPoll, out := now + POLL_INTERVAL_MS, Waiting;
    }

    method AskTurn(now: nat) returns (out: Result)
      requires ops.Some? && result == Waiting
      modifies this
      ensures State() == PollTurn(old(State()), now, old(answers)) && out == result && answers == old(answers)
    {
      hide Finish, RetryLater, Polled;
      if !ops.value.poll {
        out := End(TurnFailed);
        return;
      }
      var io, polled := answers.poll, answers.polled;
      log := log + [Poll(turnId, io, polled.status)];
      if io == Retry {
        out := Postpone(now);
        return;
      }
      if io != Ok {
        out := End(TurnFailed);
        return;
      }
      retries, status, error := 0, polled.status, polled.error;
      out := Examine(now, polled);
    }

    /** Act on a status that has come back. */
    method Examine(now: nat, polled: Response) returns (out: Result)
      requires ops.Some? && result == Waiting && polled == answers.polled
      modifies this
      ensures State() == Polled(old(State()), now, old(answers)) && out == result && answers == old(answers)
    {
      hide Finish, DownloadAudio, IsUuid, Pending;
      if polled.streamConsumed && !audioDownloaded {
        out := End(TurnFailed);
        return;
      }
      if Pending(polled.status) {
        if polled.streamReady && polled.status == Synthesizing && !audioDownloaded {
          audioEarly, audioPending := true, true;
          assert State() == old(State()).(audio := old(State()).audio.(early := true, pending := true));
          out := FetchAudio(now);
          return;
        }
        nextPoll, out := now + POLL_INTERVAL_MS, Waiting;
        return;
      }
      if polled.status == Cancelled {
        out := End(TurnCancelled);
        return;
      }
      if polled.status != Ready {
        out := End(TurnFailed);
        return;
      }
      followUp := polled.followUpListen && IsUuid(polled.questionId);
      if followUp {
        questionId := polled.questionId;
      }
      out := Conclude(now);
    }

    /** The turn is ready: end it, or fetch its sound first. */
    method Conclude(now: nat) returns (out: Result)
      requires ops.Some? && result == Waiting
      modifies this
      ensures State() == (
        if old(audioDownloaded) then Finish(old(State()), TurnReady)
        else TurnClient.DownloadAudio(old(State()).(audio := old(State()).audio.(pending := true)), now, old(answers)))
      ensures out == result && answers == old(answers)
    {
      hide Finish, DownloadAudio;
      if audioDownloaded {
        out := End(TurnReady);
        return;
      }
      audioPending := true;
      out := FetchAudio(now);
    }

    /** One turn of the clock. A turn that is over stays as it is and the deadline ends it. Before that the
        answers decide: the turn ends ready exactly when its sound is there, cancelled exactly when it was
        called off, and goes on exactly while nothing is decided. A ready end has had a ready poll and one good
        download, and once cancelled nothing more is fetched. */
    method Tick(now: nat) returns (out: Result)
      requires Valid()
      modifies this
      ensures Valid() && out == result && answers == old(answers)
      ensures old(result) != Waiting ==> State() == old(State())
      ensures old(result) == Waiting && (now >= old(deadline) || ops.None?) ==> out == TurnFailed
      ensures old(result) == Waiting && now < old(deadline) && ops.Some? ==>
                && (out == TurnReady <==> TurnLaws.EndsReady(old(State()), now, old(answers)))
                && (out == TurnCancelled <==> TurnLaws.EndsCancelled(old(State()), now, old(answers)))
                && (out == Waiting <==> now < old(nextPoll) || TurnLaws.GoesOn(old(State()), old(answers)))
      ensures out == TurnFailed && old(result) == Waiting ==> error != NoError
      ensures out == TurnReady ==>
        Count(log, ReadyPoll) > 0 && Count(log, OkDownload) == 1 && Count(log, GoodDownload) == 1
      ensures old(cancelRequested) ==> out != TurnReady && AddsNoFetch(old(log), log)
      ensures OnlySaved(log)
      ensures ops.Some? && ops.value.clear ==> Count(log, Clearing) == if out == Waiting then 0 else 1
      ensures State() == TurnClient.Tick(old(State()), now, old(answers))
    {
      hide Count, OnlySaved, AddsNoFetch, Saved, TurnClient.Tick;
      hide TurnLaws.EndsReady, TurnLaws.EndsCancelled, TurnLaws.GoesOn;
      TickPromises(State(), now, answers);
      if result == Waiting {
        if ops.Some? && now < deadline {
          TurnLaws.TickOutcome(State(), now, answers);
        } else {
          TurnLaws.NeverLate(State(), now, answers);
        }
        if TurnClient.Tick(State(), now, answers).result == TurnFailed {
          TurnLaws.FailedWhy(State(), now, answers);
        }
      }
      out := Advance(now);
    }

    /** The branches of a tick. */
    method Advance(now: nat) returns (out: Result)
      modifies this
      ensures State() == TurnClient.Tick(old(State()), now, old(answers)) && out == result && answers == old(answers)
    {
      hide Finish, DownloadAudio, CancelTurn, LookupTurn, PollTurn;
      if result != Waiting {
        return result;
      }
      if ops.None? || now >= deadline {
        if now >= deadline {
          error := Deadline;
        }
        out := End(TurnFailed);
        return;
      }
      if now < nextPoll {
        return Waiting;
      }
      if cancelRequested && turnId != "" {
        out := CallOff(now);
      } else if audioPending {
        out := FetchAudio(now);
      } else if turnId == "" {
        out := FindTurn(now);
      } else {
        out := AskTurn(now);
      }
    }

    /** The user wants the turn gone: nothing is fetched for it any more. It goes on waiting exactly while the
        request is still to be made, made again or given a turn to name. */
    method RequestCancel(now: nat) returns (out: Result)
      requires Valid()
      modifies this
      ensures Valid() && out == result && answers == old(answers)
      ensures if old(result) != Waiting then State() == old(State())
              else cancelRequested && out != TurnReady && AddsNoFetch(old(log), log)
      ensures out == Waiting <==> old(result) == Waiting && CancelPending(old(State()), now, old(answers).cancel)
      ensures old(result) == Waiting && out != Waiting ==> out == TurnCancelled
      ensures State() == TurnClient.RequestCancel(old(State()), now, old(answers).cancel)
    {
      CancelPromises(State(), now, answers.cancel);
      if result == Waiting {
        CancelWaitsIff(State(), now, answers.cancel);
      }
      hide Finish, CancelTurn, CancelPending, Parts, AddsNoFetch;
      if result != Waiting {
        return result;
      }
      var wasRequested := cancelRequested;
      cancelRequested := true;
      if wasRequested && now < nextPoll {
        return Waiting;
      }
      if turnId == "" {
        return Waiting;
      }
      if ops.None? {
        out := End(TurnCancelled);
        return;
      }
      out := CallOff(now);
    }

    /** Take the follow-up question. Only a ready turn that has handed out none gives one, and it is gone
        afterwards either way. */
    method TakeQuestion(played: bool) returns (question: Option<string>)
      requires Valid()
      modifies this`followUp, this`log
      ensures Valid() && !followUp
      ensures question.Some? ==>
        result == TurnReady && played && IsUuid(question.value) && Count(old(log), Handing) == 0
      ensures question == if old(followUp) && played && result == TurnReady && IsUuid(questionId) then Some(questionId)
                          else None
      ensures State() == TakeFollowUp(old(State()), played)
    {
      TakePromises(State(), played);
      hide IsUuid, Parts, Count;
      var intent := followUp;
      followUp := false;
      if !(intent && played && result == TurnReady) || !IsUuid(questionId) {
        return None;
      }
      log := log + [FollowUp(questionId)];
      question := Some(questionId);
    }
  }
}
