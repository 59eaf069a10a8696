/** Who holds what while a cue plays: the lease on the audio, the decoder, and when each is given back. */
module CueLease {
  import opened Clock32
  import opened Options
  import opened Pcm

  const CUE_TIMEOUT_MS: nat := 8000
  const MAX_BYTES: nat := 240000

  /** Leases handed in and given back, and decoders opened and closed, over the life of the cue. */
  datatype Books = Books(handed: multiset<nat>, released: multiset<nat>, opens: nat, closed: nat)

  /** A cue: `lease` is what must be given back, `mp3` and `decoder` whether one is open. */
  datatype Cue = Cue(status: Status, startedMs: nat, lease: Option<nat>, mp3: bool, decoder: bool, books: Books)

  const ZEROED := Cue(Idle, 0, None, false, false, Books(multiset{}, multiset{}, 0, 0))

  /** What the audio of one tick comes to. */
  datatype Outcome = Playing | Broken | Finished

  datatype Step =
    | StartPcm(size: nat, now: nat)
    | StartLease(size: nat, now: nat, lease: Option<nat>)
    | StartOpus(parses: bool, opens: bool, now: nat, lease: Option<nat>)
    | StartMp3(size: nat, opens: bool, now: nat, lease: Option<nat>)
    | Tick(now: nat, outcome: Outcome)
    | Cancel

  function Hand(b: Books, lease: Option<nat>): Books {
    if lease.Some? then b.(handed := b.handed + multiset{lease.value}) else b
  }

  function GiveBack(b: Books, lease: Option<nat>): Books {
    if lease.Some? then b.(released := b.released + multiset{lease.value}) else b
  }

  /** A start that is turned down gives its lease straight back. */
  function Reject(c: Cue, lease: Option<nat>): Cue {
    c.(books := GiveBack(Hand(c.books, lease), lease))
  }

  function ReleaseLease(c: Cue): Cue {
    var closed := (if c.mp3 then 1 else 0) + (if c.decoder then 1 else 0);
    c.(mp3 := false, decoder := false, lease := None,
       books := GiveBack(c.books.(closed := c.books.closed + closed), c.lease))
  }

  predicate PcmOk(size: nat) {
    size > 0 && size % 2 == 0 && size <= MAX_BYTES
  }

  function Stop(c: Cue): Cue {
    ReleaseLease(c.(status := Error))
  }

  function Begin(c: Cue, now: nat, lease: Option<nat>, mp3: bool, decoder: bool): Cue {
    var b := Hand(c.books, lease);
    Cue(Busy, now, lease, mp3, decoder, b.(opens := b.opens + (if mp3 || decoder then 1 else 0)))
  }

  function Next(c: Cue, s: Step): Cue {
    match s
    case StartPcm(size, now) => if c.status == Busy || !PcmOk(size) then c else Begin(c, now, None, false, false)
    case StartLease(size, now, lease) =>
      if c.status == Busy || !PcmOk(size) then Reject(c, lease) else Begin(c, now, lease, false, false)
    case StartOpus(parses, opens, now, lease) =>
      if c.status == Busy || !parses || !opens then Reject(c, lease) else Begin(c, now, lease, false, true)
    case StartMp3(size, opens, now, lease) =>
      if c.status == Busy || size == 0 || size > MAX_BYTES || !opens then Reject(c, lease)
      else Begin(c, now, lease, true, false)
    case Tick(now, outcome) =>
      if c.status != Busy then c
      else if Since(now, c.startedMs) >= CUE_TIMEOUT_MS || outcome == Broken then Stop(c)
      else if outcome == Finished then ReleaseLease(c.(status := Done))
      else c
    case Cancel => Stop(c)
  }

  function Run(c: Cue, steps: seq<Step>): Cue
    decreases |steps|
  {
    if steps == [] then c else Run(Next(c, steps[0]), steps[1..])
  }

  function Held(c: Cue): multiset<nat> {
    One(c.lease)
  }

  /** Every lease handed in has been given back, but for the one a playing cue still holds; and likewise
      for decoders. */
  predicate Balanced(c: Cue) {
    && c.books.handed == c.books.released + Held(c)
    && c.books.opens == c.books.closed + (if c.mp3 then 1 else 0) + (if c.decoder then 1 else 0)
    && (c.status != Busy ==> c.lease.None? && !c.mp3 && !c.decoder)
    && !(c.mp3 && c.decoder)
  }

  /** Nothing is owed: every lease is back and every decoder closed. */
  predicate Settled(b: Books) {
    b.handed == b.released && b.opens == b.closed
  }

  /** A start has handed the lease in and it is back already. */
  predicate Returned(before: Books, after: Books, lease: Option<nat>) {
    after == before.(handed := before.handed + One(lease), released := before.released + One(lease))
  }

  /** A start has handed the lease in and nothing has come back yet. */
  predicate Lent(before: Books, after: Books, lease: Option<nat>, opens: nat) {
    after == before.(handed := before.handed + One(lease), opens := before.opens + opens)
  }

  lemma RejectBalanced(c: Cue, lease: Option<nat>)
    requires Balanced(c)
    ensures Balanced(Reject(c, lease))
  {
  }

  lemma StopBalanced(c: Cue, status: Status)
    requires Balanced(c) && status != Busy
    ensures Balanced(ReleaseLease(c.(status := status)))
  {
  }

  lemma BeginBalanced(c: Cue, now: nat, lease: Option<nat>, mp3: bool, decoder: bool)
    requires Balanced(c) && c.status != Busy && !(mp3 && decoder)
    ensures Balanced(Begin(c, now, lease, mp3, decoder))
  {
  }

  lemma NextBalanced(c: Cue, s: Step)
    requires Balanced(c)
    ensures Balanced(Next(c, s))
  {
    hide Balanced, Reject, ReleaseLease, Begin, PcmOk, Since;
    match s
    case StartPcm(size, now) =>
      if c.status != Busy {
        BeginBalanced(c, now, None, false, false);
      }
    case StartLease(size, now, lease) =>
      RejectBalanced(c, lease);
      if c.status != Busy {
        BeginBalanced(c, now, lease, false, false);
      }
    case StartOpus(parses, opens, now, lease) =>
      RejectBalanced(c, lease);
      if c.status != Busy {
        BeginBalanced(c, now, lease, false, true);
      }
    case StartMp3(size, opens, now, lease) =>
      RejectBalanced(c, lease);
      if c.status != Busy {
        BeginBalanced(c, now, lease, true, false);
      }
    case Tick(now, outcome) =>
      StopBalanced(c, Error);
      StopBalanced(c, Done);
    case Cancel => StopBalanced(c, Error);
  }

  lemma {:induction false} RunBalanced(c: Cue, steps: seq<Step>)
    requires Balanced(c)
    ensures Balanced(Run(c, steps))
    decreases |steps|
  {
    hide Next, Balanced;
    if steps != [] {
      NextBalanced(c, steps[0]);
      RunBalanced(Next(c, steps[0]), steps[1..]);
    }
  }

  /** What a step gives back. */
  function Back(c: Cue, d: Cue): multiset<nat> {
    d.books.released - c.books.released
  }

  /** A start that the cue takes. */
  predicate Takes(c: Cue, d: Cue) {
    c.status != Busy && d.status == Busy
  }

  /** A start takes its lease over and gives none back, or gives it back and holds what it held. */
  lemma StartGivesBack(c: Cue, s: Step)
    requires Balanced(c) && (s.StartLease? || s.StartOpus? || s.StartMp3?)
    ensures var d := Next(c, s);
      if Takes(c, d) then c.lease.None? && d.lease == s.lease && Back(c, d) == multiset{}
      else d.lease == c.lease && d.status == c.status && Back(c, d) == One(s.lease)
  {
    hide PcmOk;
  }

  /** Any other step keeps the lease, or gives it back and holds none. */
  lemma EndGivesBack(c: Cue, s: Step)
    requires Balanced(c) && (s.Tick? || s.Cancel?)
    ensures var d := Next(c, s);
      if d.lease == c.lease then Back(c, d) == multiset{} else d.lease.None? && Back(c, d) == One(c.lease)
  {
    hide Since;
  }

  function One(lease: Option<nat>): multiset<nat> {
    if lease.Some? then multiset{lease.value} else multiset{}
  }

  /** The lease a step hands in. */
  function HandedBy(s: Step): multiset<nat> {
    match s
    case StartLease(_, _, lease) => One(lease)
    case StartOpus(_, _, _, lease) => One(lease)
    case StartMp3(_, _, _, lease) => One(lease)
    case _ => multiset{}
  }

  /** How often each lease was handed in by the steps. */
  function HandedIn(steps: seq<Step>): multiset<nat>
    decreases |steps|
  {
    if steps == [] then multiset{} else HandedBy(steps[0]) + HandedIn(steps[1..])
  }

  lemma HandsOver(c: Cue, now: nat, lease: Option<nat>, mp3: bool, decoder: bool)
    ensures Reject(c, lease).books.handed == c.books.handed + One(lease)
    ensures Begin(c, now, lease, mp3, decoder).books.handed == c.books.handed + One(lease)
  {
  }

  lemma NextHands(c: Cue, s: Step)
    ensures Next(c, s).books.handed == c.books.handed + HandedBy(s)
  {
    hide PcmOk, Since, Reject, Begin, One;
    match s
    case StartPcm(_, now) =>
      HandsOver(c, now, None, false, false);
      NoLease();
    case StartLease(_, now, lease) => HandsOver(c, now, lease, false, false);
    case StartOpus(_, _, now, lease) => HandsOver(c, now, lease, false, true);
    case StartMp3(_, _, now, lease) => HandsOver(c, now, lease, true, false);
    case _ =>
  }

  lemma NoLease()
    ensures One(None) == multiset{}
  {
  }

  lemma {:induction false} RunHands(c: Cue, steps: seq<Step>)
    ensures Run(c, steps).books.handed == c.books.handed + HandedIn(steps)
    decreases |steps|
  {
    hide Next, HandedBy;
    if steps != [] {
      NextHands(c, steps[0]);
      RunHands(Next(c, steps[0]), steps[1..]);
    }
  }

  /** Over every sequence of starts, ticks and cancellations, each lease is given back once for each time it
      was handed in, rejected starts included, except that a cue still playing holds its own; and every
      decoder opened is closed but for one still in use. */
  lemma LeasesReleasedOnce(steps: seq<Step>)
    ensures var c := Run(ZEROED, steps);
      && HandedIn(steps) == c.books.released + Held(c)
      && (c.status != Busy ==> HandedIn(steps) == c.books.released && c.books.opens == c.books.closed)
      && c.books.closed <= c.books.opens <= c.books.closed + 1
  {
    RunBalanced(ZEROED, steps);
    RunHands(ZEROED, steps);
  }

  /** Any tick eight seconds or more after the start ends the cue, wherever the clock wraps. */
  lemma CueEnds(c: Cue, start: nat, now: nat, outcome: Outcome)
    requires c.status == Busy && c.startedMs == Clock(start) && start + CUE_TIMEOUT_MS <= now < start + WRAP
    ensures Next(c, Tick(Clock(now), outcome)).status != Busy
  {
    SinceIsElapsed(now, start);
  }

  lemma HandThenGive(b: Books, lease: Option<nat>)
    ensures Returned(b, GiveBack(Hand(b, lease), lease), lease)
    ensures Lent(b, Hand(b, lease), lease, 0)
  {
  }

  /** The cue object. */
  class ListeningCue {
    var status: Status
    var startedMs: nat
    var release: Option<nat>
    var mp3: bool
    var decoder: bool
    ghost var books: Books

    ghost function State(): Cue
      reads this
    {
      Cue(status, startedMs, release, mp3, decoder, books)
    }

    /** Leases and decoders balance. */
    ghost predicate Valid()
      reads this
    {
      Balanced(State())
    }

    constructor ()
      ensures Valid() && Settled(books) && State() == ZEROED
    {
      status, startedMs, release, mp3, decoder := Idle, 0, None, false, false;
      books := Books(multiset{}, multiset{}, 0, 0);
    }

    /** Close what is open, then give the lease back: afterwards nothing is owed. */
    method LetGo()
      requires Balanced(State().(status := Busy))
      modifies this`mp3, this`decoder, this`release, this`books
      ensures Valid() && Settled(books) && books.handed == old(books.handed) && books.opens == old(books.opens)
      ensures State() == ReleaseLease(old(State()))
    {
      if mp3 {
        mp3, books := false, books.(closed := books.closed + 1);
      }
      if decoder {
        decoder, books := false, books.(closed := books.closed + 1);
      }
      if release.Some? {
        books, release := GiveBack(books, release), None;
      }
    }

    /** Whatever was going on, a cancelled cue owes nothing. */
    method CancelCue()
      requires Valid()
      modifies this
      ensures Valid() && status == Error && Settled(books)
      ensures books.handed == old(books.handed) && books.opens == old(books.opens)
      ensures State() == Next(old(State()), Cancel)
    {
      status := Error;
      LetGo();
    }

    method StartRaw(size: nat, now: nat) returns (ok: bool)
      requires Valid()
      modifies this
      ensures Valid() && books == old(books) && (ok <==> old(status) != Busy && PcmOk(size))
      ensures if ok then status == Busy && startedMs == now && release.None? else State() == old(State())
      ensures State() == Next(old(State()), StartPcm(size, now))
    {
      if status == Busy || size == 0 || size % 2 == 1 || size > MAX_BYTES {
        return false;
      }
      status, startedMs, release, mp3, decoder := Busy, now, None, false, false;
      ok := true;
    }

    /** A start takes the lease over, or gives it straight back and leaves the cue as it was. */
    method StartLeased(size: nat, now: nat, lease: Option<nat>) returns (ok: bool)
      requires Valid()
      modifies this
      ensures Valid() && (ok <==> old(status) != Busy && PcmOk(size))
      ensures ok ==> status == Busy && release == lease && Lent(old(books), books, lease, 0)
      ensures !ok ==> State() == old(State()).(books := books) && Returned(old(books), books, lease)
      ensures State() == Next(old(State()), StartLease(size, now, lease))
    {
      hide Balanced, Hand, GiveBack, ReleaseLease, One;
      NextBalanced(State(), StartLease(size, now, lease));
      HandThenGive(books, lease);
      ok := StartRaw(size, now);
      books := Hand(books, lease);
      if !ok {
        books := GiveBack(books, lease);
        return;
      }
      release := lease;
    }

    /** The same with a decoder, which is opened exactly when the start succeeds. */
    method StartOpusCue(parses: bool, opens: bool, now: nat, lease: Option<nat>) returns (ok: bool)
      requires Valid()
      modifies this
      ensures Valid() && (ok <==> old(status) != Busy && parses && opens)
      ensures ok ==> status == Busy && release == lease && Lent(old(books), books, lease, 1)
      ensures !ok ==> State() == old(State()).(books := books) && Returned(old(books), books, lease)
      ensures State() == Next(old(State()), StartOpus(parses, opens, now, lease))
    {
      hide Balanced, Hand, GiveBack, ReleaseLease, One;
      NextBalanced(State(), StartOpus(parses, opens, now, lease));
      HandThenGive(books, lease);
      books := Hand(books, lease);
      if status == Busy || !parses || !opens {
        books := GiveBack(books, lease);
        return false;
      }
      books := books.(opens := books.opens + 1);
      status, startedMs, release, mp3, decoder := Busy, now, lease, false, true;
      ok := true;
    }

    /** The same with an MP3 player. */
    method StartMp3Cue(size: nat, opens: bool, now: nat, lease: Option<nat>) returns (ok: bool)
      requires Valid()
      modifies this
      ensures Valid() && (ok <==> old(status) != Busy && 0 < size <= MAX_BYTES && opens)
      ensures ok ==> status == Busy && release == lease && Lent(old(books), books, lease, 1)
      ensures !ok ==> State() == old(State()).(books := books) && Returned(old(books), books, lease)
      ensures State() == Next(old(State()), StartMp3(size, opens, now, lease))
    {
      hide Balanced, Hand, GiveBack, ReleaseLease, One;
      NextBalanced(State(), StartMp3(size, opens, now, lease));
      HandThenGive(books, lease);
      books := Hand(books, lease);
      if status == Busy || size == 0 || size > MAX_BYTES || !opens {
        books := GiveBack(books, lease);
        return false;
      }
      books := books.(opens := books.opens + 1);
      status, startedMs, release, mp3, decoder := Busy, now, lease, true, false;
      ok := true;
    }

    /** A tick that leaves the cue in any state but playing leaves nothing owed. Within eight seconds of its start
        a cue plays on exactly while its audio does, and is done exactly when its audio is; later it has failed. */
    method TickCue(now: nat, outcome: Outcome) returns (out: Status)
      requires Valid()
      modifies this
      ensures Valid() && out == status && books.handed == old(books.handed) && books.opens == old(books.opens)
      ensures if out == Busy then State() == old(State()) else Settled(books)
      ensures old(status) != Busy ==> State() == old(State())
      ensures old(status) == Busy ==>
                out == if Since(now, old(startedMs)) >= 8000 then Error
                       else match outcome case Playing => Busy case Finished => Done case Broken => Error
      ensures State() == Next(old(State()), Tick(now, outcome))
    {
      if status != Busy {
        return status;
      }
      if Since(now, startedMs) >= CUE_TIMEOUT_MS || outcome == Broken {
        CancelCue();
        return status;
      }
      if outcome == Finished {
        status := Done;
        LetGo();
      }
      out := status;
    }
  }
}
