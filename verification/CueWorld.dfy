/** The cue players and the bank together. A player is handed the buffer of a slot and gives the lease back by
    the slot's name alone; nothing but the players' own steps says when. */
module CueWorld {
  import opened Options
  import B = CueBank
  import L = CueLease

  const FALLBACK_BYTES: nat := 3840

  /** A player's cue, whose lease is the name of a slot, and the buffer it plays. */
  datatype Player = Player(cue: L.Cue, audio: nat)

  /** Somebody who was handed a buffer and has not given its lease back. */
  datatype Holder = Nobody | Holds(name: nat, audio: nat)

  /** `readers` are the tasks that read a cue and return it, like the one that writes it to flash. */
  datatype World = World(bank: B.Bank, players: seq<Player>, readers: seq<Holder>)

  datatype Step =
    | Start(i: nat, name: nat, now: nat, parses: bool, opens: bool)
    | Tick(i: nat, now: nat, outcome: L.Outcome)
    | Cancel(i: nat)
    | Read(k: nat, name: nat, pcmOnly: bool)
    | Return(k: nat)
    | Publish(name: nat, buffer: nat, size: nat, codec: B.Codec)
    | Replace(slots: seq<B.Slot>)

  // ---- the release callback ----

  /** The callback is run `times` times for one slot. */
  function ReleaseTimes(b: B.Bank, name: nat, audio: nat, times: nat): (r: B.Bank)
    requires B.Shaped(b)
    ensures B.Shaped(r)
  {
    if times == 0 then b else B.Release(ReleaseTimes(b, name, audio, times - 1), name, audio)
  }

  /** The callback is run once for everything given back under the first `names` names. */
  function ReleaseAll(b: B.Bank, back: multiset<nat>, audio: nat, names: nat): (r: B.Bank)
    requires B.Shaped(b)
    ensures B.Shaped(r)
  {
    if names == 0 then b
    else ReleaseTimes(ReleaseAll(b, back, audio, names - 1), names - 1, audio, back[names - 1])
  }

  lemma {:induction false} NothingBack(b: B.Bank, back: multiset<nat>, audio: nat, names: nat)
    requires B.Shaped(b) && forall n | 0 <= n < names :: back[n] == 0
    ensures ReleaseAll(b, back, audio, names) == b
    decreases names
  {
    if names > 0 {
      NothingBack(b, back, audio, names - 1);
    }
  }

  lemma {:induction false} OneBack(b: B.Bank, name: nat, audio: nat, names: nat)
    requires B.Shaped(b) && name < names
    ensures ReleaseAll(b, multiset{name}, audio, names) == B.Release(b, name, audio)
    decreases names
  {
    if name == names - 1 {
      NothingBack(b, multiset{name}, audio, names - 1);
      assert ReleaseTimes(b, name, audio, 1) == B.Release(ReleaseTimes(b, name, audio, 0), name, audio);
    } else {
      OneBack(b, name, audio, names - 1);
    }
  }

  // ---- the steps ----

  /** A step of a cue, with the callbacks it makes. `audio` is the buffer the lease given back was handed. */
  function Play(b: B.Bank, p: Player, s: L.Step, audio: nat): (r: (B.Bank, Player))
    requires B.Shaped(b)
    ensures B.Shaped(r.0)
  {
    var c := L.Next(p.cue, s);
    (ReleaseAll(b, L.Back(p.cue, c), audio, B.CUES), Player(c, if L.Takes(p.cue, c) then audio else p.audio))
  }

  function StartOf(slot: B.Slot, name: nat, now: nat, parses: bool, opens: bool): L.Step {
    match slot.codec
    case Mp3 => L.StartMp3(slot.size, opens, now, Some(name))
    case Opus => L.StartOpus(parses, opens, now, Some(name))
    case Pcm16 => L.StartLease(slot.size, now, Some(name))
  }

  /** The built-in tone, which needs no lease. */
  function Fallback(w: World, i: nat, now: nat): World
    requires B.Shaped(w.bank) && i < |w.players|
  {
    var (b, p) := Play(w.bank, w.players[i], L.StartLease(FALLBACK_BYTES, now, None), 0);
    w.(bank := b, players := w.players[i := p])
  }

  /** Lease the named cue and start it; a compressed cue that is turned down makes way for the tone. */
  function LocalStart(w: World, i: nat, name: nat, now: nat, parses: bool, opens: bool): World
    requires B.Shaped(w.bank) && i < |w.players|
  {
    if name >= B.CUES || w.bank.slots[name].buffer.None? then Fallback(w, i, now)
    else
      var slot, p := w.bank.slots[name], w.players[i];
      var (b, p1) := Play(B.Acquire(w.bank, name), p, StartOf(slot, name, now, parses, opens), slot.buffer.value);
      var w1 := w.(bank := b, players := w.players[i := p1]);
      if slot.codec == B.Pcm16 || L.Takes(p.cue, p1.cue) then w1 else Fallback(w1, i, now)
  }

  function Go(w: World, i: nat, s: L.Step): World
    requires B.Shaped(w.bank) && i < |w.players|
  {
    var (b, p) := Play(w.bank, w.players[i], s, w.players[i].audio);
    w.(bank := b, players := w.players[i := p])
  }

  function TakeUp(w: World, k: nat, name: nat, pcmOnly: bool): World
    requires B.Shaped(w.bank) && k < |w.readers|
  {
    if w.readers[k] != Nobody || name >= B.CUES || w.bank.slots[name].buffer.None?
       || (pcmOnly && w.bank.slots[name].codec != B.Pcm16) then w
    else w.(bank := B.Acquire(w.bank, name), readers := w.readers[k := Holds(name, w.bank.slots[name].buffer.value)])
  }

  function GiveUp(w: World, k: nat): World
    requires B.Shaped(w.bank) && k < |w.readers|
  {
    match w.readers[k]
    case Nobody => w
    case Holds(name, audio) => w.(bank := B.Release(w.bank, name, audio), readers := w.readers[k := Nobody])
  }

  ghost function Next(w: World, s: Step): World
    requires B.Shaped(w.bank) && (s.Replace? ==> |s.slots| == B.CUES)
  {
    match s
    case Start(i, name, now, parses, opens) =>
      if i < |w.players| then LocalStart(w, i, name, now, parses, opens) else w
    case Tick(i, now, outcome) => if i < |w.players| then Go(w, i, L.Tick(now, outcome)) else w
    case Cancel(i) => if i < |w.players| then Go(w, i, L.Cancel) else w
    case Read(k, name, pcmOnly) => if k < |w.readers| then TakeUp(w, k, name, pcmOnly) else w
    case Return(k) => if k < |w.readers| then GiveUp(w, k) else w
    case Publish(name, buffer, size, codec) => w.(bank := B.Publish(w.bank, name, buffer, size, codec))
    case Replace(slots) => w.(bank := B.Swap(w.bank, slots))
  }

  // ---- who holds what ----

  function HolderOf(p: Player): Holder {
    match p.cue.lease
    case None => Nobody
    case Some(name) => Holds(name, p.audio)
  }

  function Holders(w: World): (hs: seq<Holder>)
    ensures |hs| == |w.players| + |w.readers|
  {
    seq(|w.players|, i requires 0 <= i < |w.players| => HolderOf(w.players[i])) + w.readers
  }

  function HeldBy(h: Holder, name: nat): multiset<nat> {
    if h.Holds? && h.name == name then multiset{h.audio} else multiset{}
  }

  /** The buffers of a slot that are in somebody's hands. */
  function Held(hs: seq<Holder>, name: nat): multiset<nat> {
    if hs == [] then multiset{} else Held(hs[..|hs| - 1], name) + HeldBy(hs[|hs| - 1], name)
  }

  lemma AddBoth(a: multiset<nat>, b: multiset<nat>, c: multiset<nat>, d: multiset<nat>, more: multiset<nat>)
    requires a + b == c + d
    ensures a + more + b == c + more + d
  {
    assert a + more + b == a + b + more;
    assert c + more + d == c + d + more;
  }

  /** When a holder changes, what it held goes out and what it holds comes in. */
  lemma {:induction false} HeldChange(hs: seq<Holder>, i: nat, h: Holder, name: nat)
    requires i < |hs|
    ensures Held(hs[i := h], name) + HeldBy(hs[i], name) == Held(hs, name) + HeldBy(h, name)
    ensures HeldBy(hs[i], name) <= Held(hs, name)
    decreases |hs|
  {
    hide HeldBy;
    var n := |hs| - 1;
    if i < n {
      HeldChange(hs[..n], i, h, name);
      assert hs[i := h][..n] == hs[..n][i := h];
      AddBoth(Held(hs[..n][i := h], name), HeldBy(hs[i], name), Held(hs[..n], name), HeldBy(h, name),
              HeldBy(hs[n], name));
    } else {
      assert hs[i := h][..n] == hs[..n];
    }
  }

  /** The bank counts exactly the leases that players and readers hold. */
  ghost predicate Inv(w: World) {
    && B.Inv(w.bank)
    && (forall i | 0 <= i < |w.players| :: L.Balanced(w.players[i].cue))
    && (forall i | 0 <= i < |Holders(w)| && Holders(w)[i].Holds? :: Holders(w)[i].name < B.CUES)
    && (forall n | 0 <= n < B.CUES :: w.bank.leased[n] == Held(Holders(w), n))
  }

  // ---- one holder changes ----

  /** Holder `at` of `w` has become `h` in `v`, and the bank's count has followed. */
  ghost predicate Follows(w: World, v: World, at: nat, h: Holder)
    requires B.Inv(w.bank) && B.Inv(v.bank) && at < |Holders(w)|
  {
    && Holders(v) == Holders(w)[at := h] && (h.Holds? ==> h.name < B.CUES)
    && forall n | 0 <= n < B.CUES ::
         v.bank.leased[n] + HeldBy(Holders(w)[at], n) == w.bank.leased[n] + HeldBy(h, n)
  }

  lemma Cancelled(a: multiset<nat>, b: multiset<nat>, c: multiset<nat>)
    requires a + c == b + c
    ensures a == b
  {
    assert a == a + c - c && b == b + c - c;
  }

  lemma FollowsKeeps(w: World, v: World, at: nat, h: Holder)
    requires Inv(w) && B.Inv(v.bank) && at < |Holders(w)| && Follows(w, v, at, h)
    requires forall i | 0 <= i < |v.players| :: L.Balanced(v.players[i].cue)
    ensures Inv(v)
  {
    hide L.Balanced, HeldBy, Held;
    forall n | 0 <= n < B.CUES
      ensures v.bank.leased[n] == Held(Holders(v), n)
    {
      HeldChange(Holders(w), at, h, n);
      Cancelled(v.bank.leased[n], Held(Holders(v), n), HeldBy(Holders(w)[at], n));
    }
  }

  lemma PlayerHolder(w: World, b: B.Bank, i: nat, p: Player)
    requires i < |w.players|
    ensures Holders(w)[i] == HolderOf(w.players[i])
    ensures Holders(w.(bank := b, players := w.players[i := p])) == Holders(w)[i := HolderOf(p)]
  {
  }

  lemma ReaderHolder(w: World, b: B.Bank, k: nat, h: Holder)
    requires k < |w.readers|
    ensures Holders(w)[|w.players| + k] == w.readers[k]
    ensures Holders(w.(bank := b, readers := w.readers[k := h])) == Holders(w)[|w.players| + k := h]
  {
  }

  /** A holder's buffer is among those the bank counts. */
  lemma HolderCounted(w: World, at: nat)
    requires Inv(w) && at < |Holders(w)| && Holders(w)[at].Holds?
    ensures var h := Holders(w)[at]; h.name < B.CUES && h.audio in w.bank.leased[h.name]
  {
    hide B.Inv, L.Balanced;
    var h := Holders(w)[at];
    HeldChange(Holders(w), at, h, h.name);
    assert h.audio in HeldBy(h, h.name);
  }

  // ---- each step ----

  lemma FallbackKeeps(w: World, i: nat, now: nat)
    requires Inv(w) && i < |w.players|
    ensures Inv(Fallback(w, i, now))
  {
    hide L.Balanced, L.Next, Held;
    var s := L.StartLease(FALLBACK_BYTES, now, None);
    var p := w.players[i];
    var (b, p1) := Play(w.bank, p, s, 0);
    L.StartGivesBack(p.cue, s);
    L.NextBalanced(p.cue, s);
    NothingBack(w.bank, L.Back(p.cue, p1.cue), 0, B.CUES);
    PlayerHolder(w, b, i, p1);
    FollowsKeeps(w, Fallback(w, i, now), i, HolderOf(p));
  }

  /** What a start makes of the bank: the lease it was handed stays out, or it is back. */
  lemma PlayHanded(b: B.Bank, p: Player, s: L.Step, name: nat)
    requires B.Inv(b) && L.Balanced(p.cue) && name < B.CUES && b.slots[name].buffer.Some?
    requires (s.StartLease? || s.StartOpus? || s.StartMp3?) && s.lease == Some(name)
    ensures var audio := b.slots[name].buffer.value; var (b1, p1) := Play(B.Acquire(b, name), p, s, audio);
      && B.Inv(b1) && L.Balanced(p1.cue)
      && if L.Takes(p.cue, p1.cue)
         then HolderOf(p) == Nobody && HolderOf(p1) == Holds(name, audio)
              && b1.leased == b.leased[name := b.leased[name] + multiset{audio}]
         else HolderOf(p1) == HolderOf(p) && b1.leased == b.leased
  {
    hide L.Balanced, L.Next, B.Inv;
    Shape(b);
    var audio, acquired := b.slots[name].buffer.value, B.Acquire(b, name);
    var (b1, p1) := Play(acquired, p, s, audio);
    B.AcquireKeeps(b, name);
    L.StartGivesBack(p.cue, s);
    L.NextBalanced(p.cue, s);
    if L.Takes(p.cue, p1.cue) {
      NothingBack(acquired, L.Back(p.cue, p1.cue), audio, B.CUES);
    } else {
      OneBack(acquired, name, audio, B.CUES);
      B.ReleaseKeeps(acquired, name, audio);
      assert b.leased[name] + multiset{audio} - multiset{audio} == b.leased[name];
    }
  }

  lemma Shape(b: B.Bank)
    requires B.Inv(b)
    ensures B.Shaped(b)
  {
  }

  /** A cue is handed a lease just acquired: it holds it afterwards, or everything is as it was. */
  lemma HandedKeeps(w: World, i: nat, name: nat, s: L.Step)
    requires Inv(w) && i < |w.players| && name < B.CUES && w.bank.slots[name].buffer.Some?
    requires (s.StartLease? || s.StartOpus? || s.StartMp3?) && s.lease == Some(name)
    ensures var (b, p) := Play(B.Acquire(w.bank, name), w.players[i], s, w.bank.slots[name].buffer.value);
      Inv(w.(bank := b, players := w.players[i := p]))
  {
    hide L.Balanced, L.Takes, Play, Held, HolderOf;
    var audio := w.bank.slots[name].buffer.value;
    var (b, p1) := Play(B.Acquire(w.bank, name), w.players[i], s, audio);
    PlayHanded(w.bank, w.players[i], s, name);
    PlayerHolder(w, b, i, p1);
    FollowsKeeps(w, w.(bank := b, players := w.players[i := p1]), i, HolderOf(p1));
  }

  lemma LocalStartKeeps(w: World, i: nat, name: nat, now: nat, parses: bool, opens: bool)
    requires Inv(w) && i < |w.players|
    ensures Inv(LocalStart(w, i, name, now, parses, opens))
  {
    hide Inv, Play, Fallback;
    BankInv(w);
    if name >= B.CUES || w.bank.slots[name].buffer.None? {
      FallbackKeeps(w, i, now);
    } else {
      var slot := w.bank.slots[name];
      var s := StartOf(slot, name, now, parses, opens);
      HandedKeeps(w, i, name, s);
      var (b, p) := Play(B.Acquire(w.bank, name), w.players[i], s, slot.buffer.value);
      FallbackKeeps(w.(bank := b, players := w.players[i := p]), i, now);
    }
  }

  /** The audio of a slot can be played. */
  predicate Plays(slot: B.Slot, parses: bool, opens: bool) {
    slot.buffer.Some? &&
    match slot.codec
    case Pcm16 => 0 < slot.size <= 240000 && slot.size % 2 == 0
    case Opus => parses && opens
    case Mp3 => 0 < slot.size <= 240000 && opens
  }

  lemma StartTakes(c: L.Cue, slot: B.Slot, name: nat, now: nat, parses: bool, opens: bool)
    requires slot.buffer.Some?
    ensures var d := L.Next(c, StartOf(slot, name, now, parses, opens));
      && (L.Takes(c, d) <==> !c.status.Busy? && Plays(slot, parses, opens))
      && (if L.Takes(c, d) then d.startedMs == now else d == c.(books := d.books))
  {
  }

  lemma ToneTakes(c: L.Cue, now: nat)
    ensures var d := L.Next(c, L.StartLease(FALLBACK_BYTES, now, None));
      if c.status.Busy? then d == c.(books := d.books)
      else L.Takes(c, d) && d.startedMs == now && d.lease == None
  {
  }

  lemma ToneOutcome(w: World, i: nat, now: nat)
    requires Inv(w) && i < |w.players|
    ensures var v := Fallback(w, i, now); var c, d := w.players[i].cue, v.players[i].cue;
      && |v.players| == |w.players| && v == w.(players := w.players[i := v.players[i]])
      && if c.status.Busy? then d == c.(books := d.books) && v.players[i].audio == w.players[i].audio
         else d.status.Busy? && d.startedMs == now && d.lease == None
  {
    hide L.Balanced, L.Next, Held;
    var s := L.StartLease(FALLBACK_BYTES, now, None);
    L.StartGivesBack(w.players[i].cue, s);
    ToneTakes(w.players[i].cue, now);
    NothingBack(w.bank, L.Back(w.players[i].cue, L.Next(w.players[i].cue, s)), 0, B.CUES);
  }

  /** What a player does when it is asked to start. A playing one goes on with what it plays. Any other plays the
      slot's audio, on a lease, exactly when that can be played; failing that it plays the tone, which needs none,
      unless the slot holds plain samples of a bad size. Nobody else's lease is touched. */
  lemma StartOutcome(w: World, i: nat, name: nat, now: nat, parses: bool, opens: bool)
    requires Inv(w) && i < |w.players|
    ensures var v := LocalStart(w, i, name, now, parses, opens);
      var p, q, filled := w.players[i], v.players[i], name < B.CUES && w.bank.slots[name].buffer.Some?;
      var plays := filled && Plays(w.bank.slots[name], parses, opens);
      && |v.players| == |w.players| && (forall j | 0 <= j < |w.players| && j != i :: v.players[j] == w.players[j])
      && v.readers == w.readers && B.Shaped(v.bank)
      && if p.cue.status.Busy? then
           q.cue == p.cue.(books := q.cue.books) && HolderOf(q) == HolderOf(p) && v.bank.leased == w.bank.leased
         else if plays then
           && q.cue.status.Busy? && q.cue.startedMs == now
           && HolderOf(q) == Holds(name, w.bank.slots[name].buffer.value)
           && v.bank.leased == w.bank.leased[name := w.bank.leased[name] + multiset{w.bank.slots[name].buffer.value}]
         else
           && v.bank.leased == w.bank.leased && HolderOf(q) == Nobody
           && if filled && w.bank.slots[name].codec == B.Pcm16 then q.cue.status == p.cue.status
              else q.cue.status.Busy? && q.cue.startedMs == now
  {
    hide L.Next, Held, Plays, L.Balanced, ReleaseAll, Fallback;
    BalancedIdle(w.players[i].cue);
    if name >= B.CUES || w.bank.slots[name].buffer.None? {
      ToneOutcome(w, i, now);
    } else {
      var slot := w.bank.slots[name];
      var s := StartOf(slot, name, now, parses, opens);
      StartTakes(w.players[i].cue, slot, name, now, parses, opens);
      PlayHanded(w.bank, w.players[i], s, name);
      HandedKeeps(w, i, name, s);
      var (b, p) := Play(B.Acquire(w.bank, name), w.players[i], s, slot.buffer.value);
      ToneOutcome(w.(bank := b, players := w.players[i := p]), i, now);
    }
  }

  lemma BalancedIdle(c: L.Cue)
    requires L.Balanced(c)
    ensures !c.status.Busy? ==> c.lease == None
  {
  }

  lemma BankInv(w: World)
    requires Inv(w)
    ensures B.Inv(w.bank)
  {
  }

  /** What a tick or a cancellation makes of the bank: the player's own lease comes back, if any does. */
  lemma PlayOn(b: B.Bank, p: Player, s: L.Step)
    requires B.Inv(b) && L.Balanced(p.cue) && (s.Tick? || s.Cancel?)
    requires HolderOf(p).Holds? ==> HolderOf(p).name < B.CUES && p.audio in b.leased[HolderOf(p).name]
    ensures var (b1, p1) := Play(b, p, s, p.audio);
      && B.Inv(b1) && L.Balanced(p1.cue)
      && if HolderOf(p1) == HolderOf(p) then b1.leased == b.leased
         else HolderOf(p1) == Nobody && var name := HolderOf(p).name;
           b1.leased == b.leased[name := b.leased[name] - multiset{p.audio}]
  {
    hide L.Balanced, L.Next, B.Inv;
    Shape(b);
    var (b1, p1) := Play(b, p, s, p.audio);
    L.EndGivesBack(p.cue, s);
    L.NextBalanced(p.cue, s);
    NoStart(p.cue, s);
    if p1.cue.lease == p.cue.lease {
      NothingBack(b, L.Back(p.cue, p1.cue), p.audio, B.CUES);
    } else {
      OneBack(b, p.cue.lease.value, p.audio, B.CUES);
      B.ReleaseKeeps(b, p.cue.lease.value, p.audio);
    }
  }

  lemma GoKeeps(w: World, i: nat, s: L.Step)
    requires Inv(w) && i < |w.players| && (s.Tick? || s.Cancel?)
    ensures Inv(Go(w, i, s))
  {
    hide L.Balanced, Play, Held;
    var (b, p1) := Play(w.bank, w.players[i], s, w.players[i].audio);
    PlayerHolder(w, b, i, p1);
    if HolderOf(w.players[i]).Holds? {
      HolderCounted(w, i);
    }
    PlayOn(w.bank, w.players[i], s);
    FollowsKeeps(w, Go(w, i, s), i, HolderOf(p1));
  }

  lemma NoStart(c: L.Cue, s: L.Step)
    requires s.Tick? || s.Cancel?
    ensures !L.Takes(c, L.Next(c, s))
  {
  }

  lemma TakeUpKeeps(w: World, k: nat, name: nat, pcmOnly: bool)
    requires Inv(w) && k < |w.readers|
    ensures Inv(TakeUp(w, k, name, pcmOnly))
  {
    hide L.Balanced, Held;
    var v := TakeUp(w, k, name, pcmOnly);
    if v != w {
      var h := Holds(name, w.bank.slots[name].buffer.value);
      B.AcquireKeeps(w.bank, name);
      ReaderHolder(w, v.bank, k, h);
      FollowsKeeps(w, v, |w.players| + k, h);
    }
  }

  /** A free reader is handed the buffer of a filled slot, of plain samples if it takes no others, and nothing
      else; what it returns is the lease it holds. */
  lemma ReadOutcome(w: World, k: nat, name: nat, pcmOnly: bool)
    requires Inv(w) && k < |w.readers|
    ensures var v, h := TakeUp(w, k, name, pcmOnly), w.readers[k];
      if h == Nobody && name < 14 && w.bank.slots[name].buffer.Some?
         && (pcmOnly ==> w.bank.slots[name].codec == B.Pcm16)
      then v.readers == w.readers[k := Holds(name, w.bank.slots[name].buffer.value)] && v.players == w.players
           && v.bank.leased == w.bank.leased[name := w.bank.leased[name] + multiset{w.bank.slots[name].buffer.value}]
      else v == w
    ensures var v, h := GiveUp(w, k), w.readers[k];
      && v.readers == w.readers[k := Nobody] && v.players == w.players && v.bank.freed == w.bank.freed
      && (h.Holds? ==> h.name < 14
                       && v.bank.leased == w.bank.leased[h.name := w.bank.leased[h.name] - multiset{h.audio}])
  {
    hide L.Balanced, Held;
    if w.readers[k].Holds? {
      ReaderHolder(w, w.bank, k, Nobody);
      HolderCounted(w, |w.players| + k);
    }
  }

  lemma GiveUpKeeps(w: World, k: nat)
    requires Inv(w) && k < |w.readers|
    ensures Inv(GiveUp(w, k))
  {
    hide L.Balanced, Held;
    if w.readers[k].Holds? {
      var v, at := GiveUp(w, k), |w.players| + k;
      ReaderHolder(w, v.bank, k, Nobody);
      HolderCounted(w, at);
      B.ReleaseKeeps(w.bank, w.readers[k].name, w.readers[k].audio);
      FollowsKeeps(w, v, at, Nobody);
    }
  }

  // ---- whole runs ----

  /** The one thing asked of the world outside: memory newly allocated is not in use. */
  ghost predicate NewMemory(b: B.Bank, s: Step)
    requires B.Shaped(b)
  {
    match s
    case Publish(_, buffer, _, _) => B.Fresh(b, buffer)
    case Replace(slots) => B.Loaded(b, slots)
    case _ => true
  }

  lemma NextKeeps(w: World, s: Step)
    requires Inv(w) && NewMemory(w.bank, s)
    ensures Inv(Next(w, s))
  {
    match s
    case Start(i, name, now, parses, opens) =>
      if i < |w.players| {
        LocalStartKeeps(w, i, name, now, parses, opens);
      }
    case Tick(i, now, outcome) =>
      if i < |w.players| {
        GoKeeps(w, i, L.Tick(now, outcome));
      }
    case Cancel(i) =>
      if i < |w.players| {
        GoKeeps(w, i, L.Cancel);
      }
    case Read(k, name, pcmOnly) =>
      if k < |w.readers| {
        TakeUpKeeps(w, k, name, pcmOnly);
      }
    case Return(k) =>
      if k < |w.readers| {
        GiveUpKeeps(w, k);
      }
    case Publish(name, buffer, size, codec) =>
      B.PublishKeeps(w.bank, name, buffer, size, codec);
      assert Holders(Next(w, s)) == Holders(w);
    case Replace(slots) =>
      B.SwapKeeps(w.bank, slots);
      assert Holders(Next(w, s)) == Holders(w);
  }

  /** A run of steps in any order; only new memory is new. */
  ghost predicate Runs(w: World, steps: seq<Step>, end: World)
    requires B.Shaped(w.bank)
    decreases |steps|
  {
    if steps == [] then end == w
    else NewMemory(w.bank, steps[0]) && B.Shaped(Next(w, steps[0]).bank) && Runs(Next(w, steps[0]), steps[1..], end)
  }

  lemma {:induction false} RunKeeps(w: World, steps: seq<Step>, end: World)
    requires Inv(w) && Runs(w, steps, end)
    ensures Inv(end)
    decreases |steps|
  {
    hide Inv, Next;
    BankInv(w);
    if steps != [] {
      NextKeeps(w, steps[0]);
      RunKeeps(Next(w, steps[0]), steps[1..], end);
    }
  }

  /** An empty bank, players that were never started and readers that hold nothing. */
  function Beginning(players: nat, readers: nat): World {
    World(B.BLANK, seq(players, _ => Player(L.ZEROED, 0)), seq(readers, _ => Nobody))
  }

  lemma {:induction false} NobodyHolds(hs: seq<Holder>, name: nat)
    requires forall i | 0 <= i < |hs| :: hs[i] == Nobody
    ensures Held(hs, name) == multiset{}
    decreases |hs|
  {
    if hs != [] {
      NobodyHolds(hs[..|hs| - 1], name);
    }
  }

  lemma BeginningInv(players: nat, readers: nat)
    ensures Inv(Beginning(players, readers))
  {
    var w := Beginning(players, readers);
    forall n | 0 <= n < B.CUES
      ensures w.bank.leased[n] == Held(Holders(w), n)
    {
      NobodyHolds(Holders(w), n);
    }
  }

  /** Over every run of starts, ticks, cancellations, readings, publications and swaps, with any number of
      players and readers: a slot's readers are the leases in somebody's hands, every player's leases came back
      exactly once but for the one it holds, and what a player or reader was handed is still in its slot and
      has not been freed. */
  lemma NothingFreedInUse(players: nat, readers: nat, steps: seq<Step>, end: World)
    requires Runs(Beginning(players, readers), steps, end)
    ensures B.Shaped(end.bank)
    ensures forall n | 0 <= n < B.CUES :: end.bank.slots[n].readers == |Held(Holders(end), n)|
    ensures forall i | 0 <= i < |end.players| ::
      var c := end.players[i].cue; c.books.handed == c.books.released + L.Held(c)
    ensures forall i | 0 <= i < |Holders(end)| && Holders(end)[i].Holds? ::
      var h := Holders(end)[i];
      h.name < B.CUES && end.bank.slots[h.name].buffer == Some(h.audio) && h.audio !in end.bank.freed
  {
    BeginningInv(players, readers);
    RunKeeps(Beginning(players, readers), steps, end);
    forall i | 0 <= i < |Holders(end)| && Holders(end)[i].Holds?
      ensures var h := Holders(end)[i];
        h.name < B.CUES && end.bank.slots[h.name].buffer == Some(h.audio) && h.audio !in end.bank.freed
    {
      HolderCounted(end, i);
    }
  }
}
