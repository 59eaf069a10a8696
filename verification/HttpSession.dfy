/** The upload session and the transport under it: when calls may reach the network, and how many bytes
    they carried. */
module HttpSession {

  datatype Io = Ok | WouldBlock | Eof | Fatal
  datatype Call = Begin(r: Io) | Write(accepted: nat) | Finish(r: Io) | Abort

  // ---- what a sequence of network calls means ----

  /** A request is open after these calls: begun, and neither finished nor aborted since. */
  function OpenAfter(log: seq<Call>): bool {
    if log == [] then false
    else
      match log[|log| - 1]
      case Begin(r) => r == Ok
      case Write(_) => OpenAfter(log[..|log| - 1])
      case Finish(r) => r != Ok && OpenAfter(log[..|log| - 1])
      case Abort => false
  }

  /** Body bytes taken since the last begin. */
  function Carried(log: seq<Call>): nat {
    if log == [] then 0
    else
      match log[|log| - 1]
      case Begin(_) => 0
      case Write(n) => Carried(log[..|log| - 1]) + n
      case _ => Carried(log[..|log| - 1])
  }

  /** Body bytes and the end of the body are sent only inside an open request, and a request is never begun
      inside another. */
  ghost predicate Legal(log: seq<Call>) {
    forall k | 0 <= k < |log| ::
      && (log[k].Write? || log[k].Finish? ==> OpenAfter(log[..k]))
      && (log[k].Begin? ==> !OpenAfter(log[..k]))
  }

  lemma LegalNote(log: seq<Call>, c: Call)
    requires Legal(log) && (c.Write? || c.Finish? ==> OpenAfter(log)) && (c.Begin? ==> !OpenAfter(log))
    ensures Legal(log + [c])
    ensures OpenAfter(log + [c]) == match c { case Begin(r) => r == Ok case Write(_) => OpenAfter(log)
                                              case Finish(r) => r != Ok && OpenAfter(log) case Abort => false }
    ensures Carried(log + [c]) ==
      match c { case Begin(_) => 0 case Write(n) => Carried(log) + n case _ => Carried(log) }
  {
    var now := log + [c];
    assert now[..|log|] == log;
    forall k | 0 <= k < |now|
      ensures (now[k].Write? || now[k].Finish? ==> OpenAfter(now[..k])) && (now[k].Begin? ==> !OpenAfter(now[..k]))
    {
      assert now[..k] == if k < |log| then log[..k] else log;
    }
  }

  /** Between a finished or aborted request and the next begin, no body byte leaves the device. */
  lemma {:induction false} NothingAfterEnd(log: seq<Call>, k: nat, j: nat)
    requires Legal(log) && k < j < |log| && (log[k] == Abort || log[k] == Finish(Ok)) && log[j].Write?
    ensures exists b | k < b < j :: log[b] == Begin(Ok)
    decreases j
  {
    assert OpenAfter(log[..j]);
    var b := LastBegin(log, j, k);
  }

  lemma {:induction false} LastBegin(log: seq<Call>, j: nat, k: nat) returns (b: nat)
    requires k < j <= |log| && OpenAfter(log[..j]) && (log[k] == Abort || log[k] == Finish(Ok))
    ensures k < b < j && log[b] == Begin(Ok)
    decreases j
  {
    var front := log[..j];
    assert front[|front| - 1] == log[j - 1] && front[..|front| - 1] == log[..j - 1];
    if log[j - 1].Begin? {
      b := j - 1;
    } else {
      assert j - 1 != k;
      b := LastBegin(log, j - 1, k);
    }
  }

  // ---- the transport ----

  class Transport {
    var begun: bool
    var finished: bool
    ghost var log: seq<Call>

    constructor ()
      ensures Valid() && log == []
    {
      begun, finished, log := false, false, [];
    }

    ghost predicate Valid()
      reads this
    {
      Legal(log) && ((begun && !finished) <==> OpenAfter(log))
    }

    /** `answer` is what the network says if it is asked. */
    method BeginRequest(answer: Io) returns (r: Io)
      requires Valid()
      modifies this
      ensures Valid() && old(log) <= log
      ensures old(OpenAfter(log)) ==> r == Fatal && log == old(log)
      ensures !old(OpenAfter(log)) ==> r == answer && OpenAfter(log) == (r == Ok) && Carried(log) == 0
    {
      hide Legal;
      if begun && !finished {
        return Fatal;
      }
      if begun {
        AbortRequest();
      }
      finished := false;
      LegalNote(log, Begin(answer));
      log := log + [Begin(answer)];
      r := answer;
      if r == Ok {
        begun := true;
      }
    }

    method WriteBody(accepted: nat) returns (n: nat)
      requires Valid()
      modifies this`log
      ensures Valid() && old(log) <= log && OpenAfter(log) == old(OpenAfter(log))
      ensures n == (if OpenAfter(log) then accepted else 0) && Carried(log) == old(Carried(log)) + n
    {
      hide Legal;
      if !begun || finished {
        return 0;
      }
      LegalNote(log, Write(accepted));
      log := log + [Write(accepted)];
      n := accepted;
    }

    method FinishRequest(answer: Io) returns (r: Io)
      requires Valid()
      modifies this
      ensures Valid() && old(log) <= log && Carried(log) == old(Carried(log))
      ensures r == if old(OpenAfter(log)) then answer else Fatal
      ensures OpenAfter(log) == (old(OpenAfter(log)) && r != Ok)
    {
      hide Legal;
      if !begun || finished {
        return Fatal;
      }
      LegalNote(log, Finish(answer));
      log := log + [Finish(answer)];
      r := answer;
      if r == Ok {
        finished := true;
      }
    }

    method AbortRequest()
      requires Valid()
      modifies this
      ensures Valid() && log == old(log) + [Abort] && !OpenAfter(log) && Carried(log) == old(Carried(log))
      ensures !begun
    {
      hide Legal;
      LegalNote(log, Abort);
      log := log + [Abort];
      begun, finished := false, true;
    }
  }

  // ---- the session ----

  datatype State = Idle | Open | Closing | Closed

  class Session {
    const transport: Transport
    var state: State
    var bytesSent: nat
    var aborted: bool

    predicate Active()
      reads this
    {
      state == Open || state == Closing
    }

    /** An active session has an open request, and has counted the bytes it carried. */
    ghost predicate Valid()
      reads this, transport
    {
      transport.Valid() && (Active() ==> OpenAfter(transport.log) && bytesSent == Carried(transport.log))
    }

    constructor (transport: Transport)
      requires transport.Valid()
      ensures Valid() && this.transport == transport && state == Idle
    {
      this.transport, state, bytesSent, aborted := transport, Idle, 0, false;
    }

    /** Start over without touching the transport. */
    method Reset()
      requires Valid()
      modifies this
      ensures Valid() && state == Idle && bytesSent == 0 && !aborted
    {
      state, bytesSent, aborted := Idle, 0, false;
    }

    method OpenSession(answer: Io) returns (ok: bool)
      requires Valid()
      modifies this, transport
      ensures Valid() && old(transport.log) <= transport.log
      ensures ok <==> !old(Active()) && !old(OpenAfter(transport.log)) && answer == Ok
      ensures ok ==> state == Open && bytesSent == 0 && !aborted
      ensures !ok ==> state == if old(Active()) then old(state) else Closed
    {
      if Active() {
        return false;
      }
      state, bytesSent, aborted := Open, 0, false;
      var r := transport.BeginRequest(answer);
      if r != Ok {
        state := Closed;
        return false;
      }
      ok := true;
    }

    /** Hand bytes to the transport, which takes `accepted` of them. */
    method WriteSession(length: nat, accepted: nat) returns (n: nat)
      requires Valid() && accepted <= length
      modifies this, transport
      ensures Valid() && old(transport.log) <= transport.log && state == old(state) && aborted == old(aborted)
      ensures n == if old(state) == Open && length > 0 then accepted else 0
      ensures bytesSent == old(bytesSent) + n
      ensures old(state) != Open ==> transport.log == old(transport.log)
    {
      if length == 0 || state != Open {
        return 0;
      }
      n := transport.WriteBody(accepted);
      bytesSent := bytesSent + n;
    }

    /** End the body. A refused end leaves the session closing, to be tried again or aborted. */
    method CloseSession(answer: Io) returns (ok: bool)
      requires Valid()
      modifies this, transport
      ensures Valid() && old(transport.log) <= transport.log && bytesSent == old(bytesSent)
      ensures old(Active()) ==> ok == (answer == Ok) && state == if ok then Closed else Closing
      ensures old(Active()) && ok ==> !OpenAfter(transport.log) && bytesSent == Carried(transport.log)
      ensures !old(Active()) ==>
        ok == (state == Closed && !aborted) && state == old(state) && transport.log == old(transport.log)
    {
      if !Active() {
        return state == Closed && !aborted;
      }
      var r := transport.FinishRequest(answer);
      if r != Ok {
        state := Closing;
        return false;
      }
      state := Closed;
      ok := true;
    }

    method AbortSession()
      requires Valid()
      modifies this, transport
      ensures Valid() && old(transport.log) <= transport.log
      ensures old(Active()) ==> state == Closed && aborted && !OpenAfter(transport.log)
      ensures !old(Active()) ==> state == old(state) && transport.log == old(transport.log)
    {
      if Active() {
        transport.AbortRequest();
        state, aborted := Closed, true;
      }
    }
  }
}
