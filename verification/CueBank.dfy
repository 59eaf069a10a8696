/** The bank of cue buffers: readers lease a slot's buffer, and a slot or the whole bank is replaced only
    when nobody reads it. */
module CueBank {
  import opened Options

  datatype Codec = Pcm16 | Opus | Mp3

  const CUES: nat := 14
  const CUE_MAX: nat := 240000
  const OPUS_MAX: nat := 65536

  /** A slot: which buffer it holds, and how many read it. */
  datatype Slot = Slot(buffer: Option<nat>, size: nat, readers: nat, codec: Codec)

  const EMPTY := Slot(None, 0, 0, Pcm16)

  /** The slots, the buffers handed out from each and not given back, and the buffers freed so far. */
  datatype Bank = Bank(slots: seq<Slot>, leased: seq<multiset<nat>>, freed: set<nat>)

  predicate Shaped(b: Bank) {
    |b.slots| == CUES && |b.leased| == CUES
  }

  // ---- operations ----

  function Acquire(b: Bank, name: nat): Bank
    requires Shaped(b)
  {
    if name >= CUES || b.slots[name].buffer.None? then b
    else
      var s := b.slots[name];
      b.(slots := b.slots[name := s.(readers := s.readers + 1)],
         leased := b.leased[name := b.leased[name] + multiset{s.buffer.value}])
  }

  function Release(b: Bank, name: nat, buffer: nat): Bank
    requires Shaped(b)
  {
    if name >= CUES then b
    else
      var s := b.slots[name];
      b.(slots := b.slots[name := if s.readers > 0 then s.(readers := s.readers - 1) else s],
         leased := b.leased[name := b.leased[name] - multiset{buffer}])
  }

  predicate SizeOk(size: nat, codec: Codec) {
    match codec
    case Pcm16 => 0 < size <= CUE_MAX && size % 2 == 0
    case Opus => 4 <= size <= OPUS_MAX
    case Mp3 => 4 <= size <= CUE_MAX
  }

  predicate MayPublish(b: Bank, name: nat, size: nat, codec: Codec)
    requires Shaped(b)
  {
    name < CUES && SizeOk(size, codec) && b.slots[name].readers == 0
  }

  function Buffer(s: Slot): set<nat> {
    if s.buffer.Some? then {s.buffer.value} else {}
  }

  /** Replace one slot; the caller frees what was in it, or the new buffer when it is turned down. */
  function Publish(b: Bank, name: nat, buffer: nat, size: nat, codec: Codec): Bank
    requires Shaped(b)
  {
    if !MayPublish(b, name, size, codec) then b.(freed := b.freed + {buffer})
    else b.(slots := b.slots[name := Slot(Some(buffer), size, 0, codec)], freed := b.freed + Buffer(b.slots[name]))
  }

  predicate AllIdle(slots: seq<Slot>) {
    forall i | 0 <= i < |slots| :: slots[i].readers == 0
  }

  ghost function Buffers(slots: seq<Slot>): set<nat> {
    set i | 0 <= i < |slots| && slots[i].buffer.Some? :: slots[i].buffer.value
  }

  /** Replace every slot at once, and free what was there. */
  ghost function Swap(b: Bank, slots: seq<Slot>): Bank
    requires Shaped(b) && |slots| == CUES
  {
    if AllIdle(b.slots) then b.(slots := slots, freed := b.freed + Buffers(b.slots))
    else b.(freed := b.freed + Buffers(slots))
  }

  // ---- the invariant ----

  /** Readers are counted exactly, they read what the slot holds, and no buffer is in two places. */
  ghost predicate Inv(b: Bank) {
    && Shaped(b)
    && (forall i | 0 <= i < CUES :: |b.leased[i]| == b.slots[i].readers)
    && (forall i, x | 0 <= i < CUES && x in b.leased[i] :: b.slots[i].buffer == Some(x))
    && (forall i, j | 0 <= i < CUES && 0 <= j < CUES && i != j && b.slots[i].buffer.Some? ::
          b.slots[i].buffer != b.slots[j].buffer)
    && (forall i | 0 <= i < CUES && b.slots[i].buffer.Some? :: b.slots[i].buffer.value !in b.freed)
  }

  ghost predicate Fresh(b: Bank, buffer: nat)
    requires Shaped(b)
  {
    buffer !in b.freed && forall i | 0 <= i < CUES :: b.slots[i].buffer != Some(buffer)
  }

  /** A bank read into memory beside the one in use. */
  ghost predicate Loaded(b: Bank, slots: seq<Slot>)
    requires Shaped(b)
  {
    && |slots| == CUES && AllIdle(slots)
    && (forall i | 0 <= i < CUES && slots[i].buffer.Some? :: Fresh(b, slots[i].buffer.value))
    && (forall i, j | 0 <= i < CUES && 0 <= j < CUES && i != j && slots[i].buffer.Some? ::
          slots[i].buffer != slots[j].buffer)
  }

  lemma AcquireKeeps(b: Bank, name: nat)
    requires Inv(b)
    ensures Inv(Acquire(b, name))
  {
  }

  lemma ReleaseKeeps(b: Bank, name: nat, buffer: nat)
    requires Inv(b) && name < CUES && buffer in b.leased[name]
    ensures Inv(Release(b, name, buffer))
  {
    assert |b.leased[name] - multiset{buffer}| == |b.leased[name]| - 1;
  }

  lemma PublishKeeps(b: Bank, name: nat, buffer: nat, size: nat, codec: Codec)
    requires Inv(b) && Fresh(b, buffer)
    ensures Inv(Publish(b, name, buffer, size, codec))
  {
    if MayPublish(b, name, size, codec) {
      assert b.leased[name] == multiset{};
    }
  }

  lemma SwapKeeps(b: Bank, slots: seq<Slot>)
    requires Inv(b) && Loaded(b, slots)
    ensures Inv(Swap(b, slots))
  {
    if AllIdle(b.slots) {
      forall i | 0 <= i < CUES
        ensures b.leased[i] == multiset{}
      {
        assert b.slots[i].readers == 0;
      }
    }
  }

  /** The bank changes as a whole exactly when no lease is out; the one it leaves behind is freed, or else the
      one that was loaded. */
  lemma SwapWhenUnused(b: Bank, slots: seq<Slot>)
    requires Inv(b) && Loaded(b, slots)
    ensures var c, unused := Swap(b, slots), forall i | 0 <= i < CUES :: b.leased[i] == multiset{};
      && c.leased == b.leased && c.slots == (if unused then slots else b.slots)
      && forall x: nat :: x in c.freed <==>
           x in b.freed || exists i | 0 <= i < CUES :: (if unused then b.slots[i] else slots[i]).buffer == Some(x)
  {
    assert AllIdle(b.slots) <==> forall i | 0 <= i < CUES :: b.leased[i] == multiset{} by {
      forall i | 0 <= i < CUES
        ensures b.slots[i].readers == 0 <==> b.leased[i] == multiset{}
      {
        NoReaders(b, i);
      }
    }
  }

  const BLANK := Bank(seq(CUES, _ => EMPTY), seq(CUES, _ => multiset{}), {})

  /** What somebody reads has not been freed. */
  lemma LeasedAlive(b: Bank)
    requires Inv(b)
    ensures forall i, x | 0 <= i < CUES && x in b.leased[i] :: x !in b.freed
  {
    forall i, x | 0 <= i < CUES && x in b.leased[i]
      ensures x !in b.freed
    {
      assert b.slots[i].buffer == Some(x);
    }
  }

  lemma InSlot(b: Bank, name: nat, reader: nat)
    requires Inv(b) && name < CUES && reader in b.leased[name]
    ensures b.slots[name].buffer == Some(reader)
  {
  }

  /** The release goes by name and counts only: one too many ends somebody else's lease, and the next
      publication frees the buffer in use. So it matters that holders give back only what they hold. */
  lemma ReleaseTooMany(b: Bank, name: nat, reader: nat, buffer: nat, size: nat, codec: Codec)
    requires Inv(b) && name < CUES && b.leased[name] == multiset{reader} && SizeOk(size, codec)
    ensures reader !in b.freed
    ensures reader in Publish(Release(b, name, reader), name, buffer, size, codec).freed
  {
    LeasedAlive(b);
    assert reader in b.leased[name] && |b.leased[name]| == b.slots[name].readers == 1;
    var released := Release(b, name, reader);
    assert released.slots[name] == b.slots[name].(readers := 0);
    InSlot(b, name, reader);
  }

  /** The slots in memory; who reads what and what was freed are ghost. */
  class Slots {
    const slots: array<Slot>
    ghost var leased: seq<multiset<nat>>
    ghost var freed: set<nat>

    ghost function State(): Bank
      reads this, slots
    {
      Bank(slots[..], leased, freed)
    }

    /** Readers are the outstanding leases, and what they read is in its slot and not freed. */
    ghost predicate Valid()
      reads this, slots
    {
      Inv(State())
    }

    constructor ()
      ensures Valid() && State() == BLANK && fresh(slots)
    {
      slots := new Slot[CUES](_ => EMPTY);
      leased, freed := seq(CUES, _ => multiset{}), {};
      new;
      assert slots[..] == seq(CUES, _ => EMPTY);
    }

    /** A lease of a filled slot is one more reader of the slot's buffer, which stays alive. */
    method AcquireAudio(name: nat) returns (audio: Option<nat>)
      requires Valid()
      modifies this`leased, slots
      ensures Valid() && (audio.Some? <==> name < CUES && old(slots[..])[name].buffer.Some?)
      ensures audio.Some? ==>
        && leased == old(leased)[name := old(leased)[name] + multiset{audio.value}] && audio.value !in freed
        && slots[name] == old(slots[name]).(readers := old(slots[name]).readers + 1)
      ensures audio.None? ==> State() == old(State())
      ensures State() == Acquire(old(State()), name)
    {
      AcquireKeeps(State(), name);
      audio := None;
      if name < slots.Length && slots[name].buffer.Some? {
        var s := slots[name];
        audio := s.buffer;
        ghost var was := slots[..];
        slots[name] := s.(readers := s.readers + 1);
        leased := leased[name := leased[name] + multiset{s.buffer.value}];
        assert slots[..] == was[name := s.(readers := s.readers + 1)];
      }
    }

    /** The holder of a lease, who was handed `buffer`, gives it back: it is that one lease and no other that
        ends, and the buffer is not freed by it. */
    method ReleaseNamed(name: nat, ghost buffer: nat)
      requires Valid() && (name < CUES ==> buffer in leased[name])
      modifies this`leased, slots
      ensures Valid()
      ensures if name < CUES
              then leased == old(leased)[name := old(leased)[name] - multiset{buffer}]
                   && slots[name] == old(slots[name]).(readers := old(slots[name]).readers - 1) && buffer !in freed
              else State() == old(State())
      ensures State() == Release(old(State()), name, buffer)
    {
      LeasedAlive(State());
      if name < slots.Length {
        ReleaseKeeps(State(), name, buffer);
        ghost var was := slots[..];
        var s := slots[name];
        if s.readers > 0 {
          s := s.(readers := s.readers - 1);
        }
        slots[name] := s;
        leased := leased[name := leased[name] - multiset{buffer}];
        assert slots[..] == was[name := s];
      }
    }

    /** The buffer to free: what the slot held, or the new one when it is turned down. Nobody reads it. */
    method PublishCodec(name: nat, buffer: nat, size: nat, codec: Codec) returns (ok: bool, previous: Option<nat>)
      requires Valid() && Fresh(State(), buffer)
      modifies this`freed, slots
      ensures Valid() && leased == old(leased) && forall i, x | 0 <= i < CUES && x in leased[i] :: x !in freed
      ensures ok <==> name < 14 && old(leased)[name] == multiset{}
                      && match codec
                         case Pcm16 => 0 < size <= 240000 && size % 2 == 0
                         case Opus => 4 <= size <= 65536
                         case Mp3 => 4 <= size <= 240000
      ensures ok ==> slots[name] == Slot(Some(buffer), size, 0, codec) && previous == old(slots[..])[name].buffer
      ensures !ok ==> slots[..] == old(slots[..]) && previous == None
      ensures State() == Publish(old(State()), name, buffer, size, codec)
    {
      PublishKeeps(State(), name, buffer, size, codec);
      LeasedAlive(Publish(State(), name, buffer, size, codec));
      NoReaders(State(), name);
      ok, previous := false, None;
      if name < slots.Length && SizeOk(size, codec) && slots[name].readers == 0 {
        ghost var was := slots[..];
        ok, previous := true, slots[name].buffer;
        freed := freed + Buffer(slots[name]);
        slots[name] := Slot(Some(buffer), size, 0, codec);
        assert slots[..] == was[name := Slot(Some(buffer), size, 0, codec)];
      } else {
        freed := freed + {buffer};
      }
    }
  }

  lemma NoReaders(b: Bank, name: nat)
    requires Inv(b)
    ensures name < CUES ==> (b.slots[name].readers == 0 <==> b.leased[name] == multiset{})
  {
    if name < CUES {
      assert |b.leased[name]| == b.slots[name].readers;
    }
  }
}
