/** The cue generation store and the cache that refreshes it: load, space check, cleaning, staging and the
    switch of the manifest, with a power cut possible at every step of the flash. */
module CueCache {
  import opened Bytes
  import opened CueFlash
  import opened CueStore
  import opened Options

  // ---- what the steps of a refresh do to the installed set ----

  /** Every disk passed while a cue of another generation is written still installs what it did. */
  lemma StagingKeeps(t: Tools, start: Disk, d: Disk, id: string, i: nat, data: seq<byte>)
    requires Bootable(t, start) && Hex(id) && i < CUES && IdOf(Load(t, start)) != id
    requires Flash.Midway(start, d, CueFile(id, i), data)
    ensures Load(t, d) == Load(t, start) && Bootable(t, d)
  {
    var file := CueFile(id, i);
    if Agree(start, d, {Part(file)}) {
      PartsDoNotMatter(t, start, d, file);
    } else {
      PartUnguarded(t, start, file);
      CandidateUnguarded(t, start, id, i);
      LoadKeeps(t, start, d, {Part(file), file});
    }
  }

  /** The first `n` cues of a generation are on the disk. */
  ghost predicate Staged(t: Tools, d: Disk, g: Generation, cues: seq<seq<byte>>, n: nat)
    requires WellFormed(g) && n <= CUES && n <= |cues|
  {
    forall j | 0 <= j < n ::
      CueFile(g.id, j) in d && d[CueFile(g.id, j)] == cues[j] && Good(t, g.items[j], cues[j])
  }

  lemma NothingStaged(t: Tools, d: Disk, g: Generation)
    requires WellFormed(g)
    ensures Staged(t, d, g, [], 0)
  {
  }

  lemma StagedOneMore(t: Tools, d: Disk, g: Generation, cues: seq<seq<byte>>, n: nat)
    requires WellFormed(g) && n < CUES && n < |cues| && Staged(t, d, g, cues, n) && Good(t, g.items[n], cues[n])
    ensures Staged(t, Flash.Written(d, CueFile(g.id, n), cues[n]), g, cues, n + 1)
  {
    forall j | 0 <= j < n
      ensures CueFile(g.id, j) != CueFile(g.id, n) && CueFile(g.id, j) != Part(CueFile(g.id, n))
    {
      CueFileIsNoOther(g.id, j, CueFile(g.id, n));
      if CueFile(g.id, j) == CueFile(g.id, n) {
        CueFilesDiffer(g.id, j, g.id, n);
      }
    }
  }

  /** With all cues staged, putting the manifest in place installs the new set at once. */
  lemma CommitInstalls(t: Tools, d: Disk, g: Generation, cues: seq<seq<byte>>, manifest: seq<byte>)
    requires |cues| == CUES && WellFormed(g) && Staged(t, d, g, cues, CUES)
    requires Parse(t, manifest) == Some(g) && |manifest| < MANIFEST_MAX
    ensures Load(t, Flash.Written(d, MANIFEST, manifest))
         == if |manifest| < MANIFEST_MAX - 1 then Some(Loaded(g, cues)) else None
  {
    var e := Flash.Written(d, MANIFEST, manifest);
    forall i | 0 <= i < CUES
      ensures CueFile(g.id, i) in e && e[CueFile(g.id, i)] == cues[i]
    {
      CueFileIsNoOther(g.id, i, MANIFEST);
    }
    assert Cues(e, g.id) == cues;
  }

  /** Only files the cleaner may delete are gone. */
  ghost predicate Kept(before: Disk, after: Disk, active: string) {
    && (forall n | n in after :: n in before && after[n] == before[n])
    && (forall n | n in before && !Doomed(n, active) :: n in after)
  }

  /** Told the right generation, the cleaner leaves the installed set alone at every step. */
  lemma CleaningKeeps(t: Tools, start: Disk, d: Disk, active: string)
    requires Bootable(t, start) && IdOf(Load(t, start)) == active && Kept(start, d, active)
    ensures Load(t, d) == Load(t, start) && Bootable(t, d)
  {
    if Load(t, start).Some? {
      assert !Doomed(MANIFEST, active) by {
        assert |MANIFEST| < 69;
      }
      forall i | 0 <= i < CUES
        ensures CueFile(active, i) in d
      {
        CueFileDoomed(active, i, active);
      }
      assert Cues(d, active) == Cues(start, active);
    }
  }

  // ---- space ----

  /** The cleaner deletes every file a candidate could have left of its own, so what remains under the
      candidate's name are strangers. */
  lemma CleanLeavesStrangers(d: Disk, active: string, id: string)
    requires Hex(id) && id != active
    ensures NoneOwn(Cleaned(d, active), id)
  {
    forall i | 0 <= i < CUES
      ensures CueFile(id, i) !in Cleaned(d, active) && Part(CueFile(id, i)) !in Cleaned(d, active)
    {
      CueFileDoomed(id, i, active);
      var p := Part(CueFile(id, i));
      assert p[..64] == id && p[64] == '_';
    }
  }

  lemma StrangerStays(id: string)
    requires Hex(id)
    ensures var name := id + "_x.bin"; Prefixed(name, id) && !Doomed(name, "")
    ensures forall i | 0 <= i < CUES :: id + "_x.bin" != CueFile(id, i) && id + "_x.bin" != Part(CueFile(id, i))
  {
    var name := id + "_x.bin";
    assert name[..64] == id && name[64] == '_' && |name| == 70;
    assert forall i | 0 <= i < CUES :: |CueFile(id, i)| >= 73;
  }

  /** A foreign file under the candidate's name is kept by the cleaner and left out of the count, so the space
      check says yes and the very first cue can take the store over its limit. */
  lemma StrangerOverfills(g: Generation, limit: nat)
    requires WellFormed(g) && 2 * MANIFEST_MAX + Sizes(g.items, CUES) + Largest(g.items, CUES) <= limit
    ensures var d: Disk := map[g.id + "_x.bin" := seq(limit, _ => 0)];
      Cleaned(d, "") == d && Total(d) == limit && Demand(d, g) <= limit && limit < Peak(d, g, 0)
  {
    var name := g.id + "_x.bin";
    var data: seq<byte> := seq(limit, _ => 0);
    var d: Disk := map[name := data];
    StrangerStays(g.id);
    OneFile(name, data);
    assert Others(d, g.id) == map[];
    assert Beside(d, g.id, 0) == d;
    assert Sizes(g.items, 1) == Sizes(g.items, 0) + g.items[0].size;
  }

  lemma OneFile(name: string, data: seq<byte>)
    ensures Total(map[name := data]) == |data|
  {
    var empty: Disk := map[];
    TotalWith(empty, name, data);
    assert empty[name := data] == map[name := data] && empty - {name} == empty;
  }

  /** Two long cues, and twelve short ones. */
  function Uneven(id: string): Generation {
    Generation(id, seq(CUES, i => Item([], if i == 1 || i == 2 then CUE_MAX else 4, 24000, 1)))
  }

  lemma UnevenSizes(id: string)
    requires Hex(id)
    ensures WellFormed(Uneven(id)) && Sizes(Uneven(id).items, CUES) == 2 * CUE_MAX + 48
    ensures Sizes(Uneven(id).items, 1) == 4 && Largest(Uneven(id).items, CUES) == CUE_MAX
  {
    var items := Uneven(id).items;
    UnevenTail(id, CUES);
    assert Sizes(items, 1) == Sizes(items, 0) + 4;
  }

  lemma {:induction false} UnevenTail(id: string, n: nat)
    requires 3 <= n <= CUES
    ensures Sizes(Uneven(id).items, n) == 2 * CUE_MAX + 4 * (n - 2) && Largest(Uneven(id).items, n) == CUE_MAX
    decreases n
  {
    var items := Uneven(id).items;
    if n == 3 {
      assert Sizes(items, 3) == Sizes(items, 2) + CUE_MAX && Sizes(items, 2) == Sizes(items, 1) + CUE_MAX;
      assert Sizes(items, 1) == Sizes(items, 0) + 4;
      assert Largest(items, 2) >= Largest(items, 1) && Largest(items, 1) >= Largest(items, 0);
      assert Largest(items, 1) <= CUE_MAX && Largest(items, 2) <= CUE_MAX;
    } else {
      UnevenTail(id, n - 1);
    }
  }

  /** The long cues complete, and a temporary file of each: attempts cut short without a cleaning between. */
  function Leftovers(id: string): Disk {
    var data: seq<byte> := seq(CUE_MAX, _ => 0);
    map[CueFile(id, 1) := data][CueFile(id, 2) := data][Part(CueFile(id, 1)) := data][Part(CueFile(id, 2)) := data]
  }

  lemma LeftoversTotal(id: string)
    requires Hex(id)
    ensures Total(Leftovers(id)) == 4 * CUE_MAX
  {
    var data: seq<byte> := seq(CUE_MAX, _ => 0);
    var a, b := CueFile(id, 1), CueFile(id, 2);
    NextNames(id, 2);
    assert a in CueFiles(id, 2) && Part(a) in Parts(id, 2);
    CueFileIsNoOther(id, 1, a);
    CueFileIsNoOther(id, 1, b);
    CueFileIsNoOther(id, 2, b);
    var d1: Disk := map[a := data];
    var d2 := d1[b := data];
    var d3 := d2[Part(a) := data];
    OneFile(a, data);
    Added(d1, b, data);
    Added(d2, Part(a), data);
    Added(d3, Part(b), data);
  }

  lemma Added(d: Disk, name: string, data: seq<byte>)
    requires name !in d
    ensures Total(d[name := data]) == Total(d) + |data|
  {
    TotalWith(d, name, data);
    assert d - {name} == d;
  }

  /** The candidate's own leftovers do it too, with no foreign file: a temporary file is not replaced until its
      cue's turn comes, and is not counted either. */
  lemma LeftoversOverfill(id: string)
    requires Hex(id)
    ensures var d, g := Leftovers(id), Uneven(id);
      WellFormed(g) && Demand(d, g) <= Total(d) < Peak(d, g, 0)
  {
    var d, g := Leftovers(id), Uneven(id);
    UnevenSizes(id);
    LeftoversTotal(id);
    OwnNames(id, 1);
    OwnNames(id, 2);
    NextNames(id, 1);
    NextNames(id, 2);
    assert Others(d, id) == map[];
    LeftoversBeside(id);
  }

  lemma LeftoversBeside(id: string)
    requires Hex(id)
    ensures Beside(Leftovers(id), id, 0) == Leftovers(id)
  {
    var d, part := Leftovers(id), Part(CueFile(id, 0));
    OwnNames(id, 1);
    OwnNames(id, 2);
    assert Mine(d, id) == d;
    assert part !in d by {
      forall i | 1 <= i < 3
        ensures part != CueFile(id, i) && part != Part(CueFile(id, i))
      {
        CueFileIsNoOther(id, i, CueFile(id, 0));
        PartsDiffer(CueFile(id, 0), CueFile(id, i));
        if CueFile(id, 0) == CueFile(id, i) {
          CueFilesDiffer(id, 0, id, i);
        }
      }
    }
    assert CueFiles(id, 0) == {} && Parts(id, 1) == {part};
  }

  // ---- the store operations ----

  /** Write one cue of a generation, if it is what the generation says. */
  method WriteCue(flash: Flash, g: Generation, i: nat, data: seq<byte>) returns (ok: bool)
    requires WellFormed(g) && i < CUES
    modifies flash`faults, flash`files, flash`trace
    ensures flash.Steps(old(flash.files), old(flash.trace), CueFile(g.id, i), data)
    ensures Flash.Midway(old(flash.files), flash.files, CueFile(g.id, i), data)
    ensures ok ==> |data| == g.items[i].size && flash.tools.digest(data) == g.items[i].sha
                   && flash.files == Flash.Written(old(flash.files), CueFile(g.id, i), data)
                   && flash.Filled(old(flash.files), old(flash.trace), CueFile(g.id, i), data)
    ensures old(flash.faults) == [] && |data| == g.items[i].size && flash.tools.digest(data) == g.items[i].sha ==>
              ok && flash.faults == []
  {
    Flash.PartMidway(flash.files, CueFile(g.id, i), data, 0);
    if |data| != g.items[i].size || flash.tools.digest(data) != g.items[i].sha {
      return false;
    }
    ok := flash.WriteFile(CueFile(g.id, i), data);
  }

  predicate AllSized(d: Disk, g: Generation)
    requires WellFormed(g)
  {
    forall i | 0 <= i < CUES :: CueFile(g.id, i) in d && |d[CueFile(g.id, i)]| == g.items[i].size
  }

  /** Put the manifest in place once every cue has its size. */
  method Commit(flash: Flash, g: Generation, manifest: seq<byte>) returns (ok: bool)
    requires WellFormed(g)
    modifies flash`faults, flash`files, flash`trace
    ensures flash.Steps(old(flash.files), old(flash.trace), MANIFEST, manifest)
    ensures Flash.Midway(old(flash.files), flash.files, MANIFEST, manifest)
    ensures if ok then |manifest| < MANIFEST_MAX && flash.files == Flash.Written(old(flash.files), MANIFEST, manifest)
            else Agree(old(flash.files), flash.files, {Part(MANIFEST)})
    ensures !ok ==> flash.Untouched(old(flash.files), old(flash.trace), MANIFEST)
    ensures ok ==> AllSized(old(flash.files), g)
    ensures ok ==> flash.Filled(old(flash.files), old(flash.trace), MANIFEST, manifest)
    ensures old(flash.faults) == [] && |manifest| < MANIFEST_MAX && AllSized(old(flash.files), g) ==> ok
    ensures old(flash.faults) == [] ==> flash.faults == []
  {
    Flash.PartMidway(flash.files, MANIFEST, manifest, 0);
    if |manifest| >= MANIFEST_MAX {
      return false;
    }
    for i := 0 to CUES
      invariant forall j | 0 <= j < i ::
        CueFile(g.id, j) in flash.files && |flash.files[CueFile(g.id, j)]| == g.items[j].size
    {
      var file := CueFile(g.id, i);
      if file !in flash.files || |flash.files[file]| != g.items[i].size {
        return false;
      }
    }
    ok := flash.WriteFile(MANIFEST, manifest);
  }

  /** Read the installed set, or nothing. */
  method LoadSet(flash: Flash) returns (r: Option<Loaded>)
    ensures r == Load(flash.tools, flash.files)
    ensures r.Some? ==> CuesAsPromised(flash.tools, r.value)
  {
    if MANIFEST !in flash.files || |flash.files[MANIFEST]| >= MANIFEST_MAX - 1 {
      return None;
    }
    var parsed := Parse(flash.tools, flash.files[MANIFEST]);
    if parsed.None? {
      return None;
    }
    var g := parsed.value;
    var cues: seq<seq<byte>> := [];
    for i := 0 to CUES
      invariant |cues| == i
      invariant forall j | 0 <= j < i :: CueFile(g.id, j) in flash.files && cues[j] == flash.files[CueFile(g.id, j)]
      invariant forall j | 0 <= j < i :: Good(flash.tools, g.items[j], flash.files[CueFile(g.id, j)])
    {
      var file := CueFile(g.id, i);
      if file !in flash.files || !Good(flash.tools, g.items[i], flash.files[file]) {
        return None;
      }
      cues := cues + [flash.files[file]];
    }
    assert cues == Cues(flash.files, g.id);
    r := Some(Loaded(g, cues));
  }

  /** Is there room for a whole candidate beside everything else? */
  method HasSpace(flash: Flash, g: Generation) returns (ok: bool)
    requires WellFormed(g)
    ensures ok <==> Demand(flash.files, g) <= flash.limit
  {
    var total, largest := 2 * MANIFEST_MAX, 0;
    for i := 0 to CUES
      invariant total == 2 * MANIFEST_MAX + Sizes(g.items, i) && largest == Largest(g.items, i)
    {
      total := total + g.items[i].size;
      if g.items[i].size > largest {
        largest := g.items[i].size;
      }
    }
    total := total + largest;
    ghost var base := total;
    ghost var seen: Disk := map[];
    var entries := flash.files.Keys;
    while entries != {}
      invariant entries <= flash.files.Keys && total == base + Total(seen)
      invariant seen == map n | n in flash.files && n !in entries && !Prefixed(n, g.id) :: flash.files[n]
      decreases |entries|
    {
      var name :| name in entries;
      entries := entries - {name};
      if !Prefixed(name, g.id) {
        TotalWith(seen, name, flash.files[name]);
        assert seen - {name} == seen;
        seen := seen[name := flash.files[name]];
        total := total + |flash.files[name]|;
      }
    }
    assert seen == Others(flash.files, g.id);
    ok := total <= flash.limit;
  }

  /** Delete temporary files and the cues of generations that are not active. */
  method Clean(flash: Flash, active: string)
    modifies flash`faults, flash`files, flash`trace
    ensures Kept(old(flash.files), flash.files, active) && old(flash.trace) <= flash.trace
    ensures forall k | |old(flash.trace)| <= k < |flash.trace| :: Kept(old(flash.files), flash.trace[k], active)
    ensures old(flash.faults) == [] ==> flash.faults == [] && flash.files == Cleaned(old(flash.files), active)
  {
    ghost var start := flash.files;
    var entries := flash.files.Keys;
    while entries != {}
      invariant entries <= start.Keys
      invariant Kept(start, flash.files, active) && old(flash.trace) <= flash.trace
      invariant forall n | n in entries :: n in flash.files
      invariant forall k | |old(flash.trace)| <= k < |flash.trace| :: Kept(start, flash.trace[k], active)
      invariant old(flash.faults) == [] ==> flash.faults == []
      invariant old(flash.faults) == [] ==>
                  forall n | n in start && n !in entries && Doomed(n, active) :: n !in flash.files
      decreases |entries|
    {
      var name :| name in entries;
      entries := entries - {name};
      if Doomed(name, active) {
        flash.Unlink(name);
      }
    }
  }

  // ---- the cache ----

  /** What one refresh gets from the gateway: the manifest and the cues, or nothing. */
  datatype Reply = Reply(manifest: Option<seq<byte>>, cues: seq<Option<seq<byte>>>)

  /** One turn of the worker: the leases there are when it comes to switch, and what the gateway says. */
  datatype Visit = Visit(readers: seq<nat>, reply: Reply)

  /** The manifest is short enough for the loader. */
  predicate Loadable(v: Visit) {
    && |v.readers| == CUES && |v.reply.cues| == CUES
    && (v.reply.manifest.Some? ==> |v.reply.manifest.value| < MANIFEST_MAX - 1)
  }

  /** The time from one start to the next: which steps of the flash fail, what the checks say, the turns of the
      worker, the disk the power cut leaves, and what it makes of one temporary file. */
  datatype Session = Session(
    faults: seq<nat>, answers: seq<bool>, visits: seq<Visit>, cut: nat, torn: Option<(string, seq<byte>)>)

  /** The set there was, or a complete set that one of the replies announced. */
  ghost predicate Known(t: Tools, was: Option<Loaded>, visits: seq<Visit>, now: Option<Loaded>) {
    now == was || (now.Some? && exists i | 0 <= i < |visits| :: Announces(t, visits[i], now.value.generation))
  }

  predicate Announces(t: Tools, v: Visit, g: Generation) {
    v.reply.manifest.Some? && Parse(t, v.reply.manifest.value) == Some(g)
  }

  class Cache {
    const flash: Flash
    var active: string
    var bank: seq<seq<byte>>
    var readers: seq<nat>
    var answers: seq<bool>    // what the idle and ownership checks will say; true when used up

    /** The memory knows what the flash installs. */
    ghost predicate Valid()
      reads this, flash
    {
      && |readers| == CUES
      && Bootable(flash.tools, flash.files) && active == IdOf(Load(flash.tools, flash.files))
      && (active != "" ==> bank == Load(flash.tools, flash.files).value.cues)
    }

    /** A start: from a flash whose set loads, or that has no manifest, the cache is in step with it. */
    constructor (flash: Flash, answers: seq<bool>)
      requires Bootable(flash.tools, flash.files)
      ensures Valid() && this.flash == flash && this.answers == answers
      ensures active == IdOf(Load(flash.tools, flash.files)) && forall i | 0 <= i < CUES :: readers[i] == 0
    {
      this.flash, this.answers := flash, answers;
      active, bank, readers := "", [], seq(CUES, _ => 0);
      new;
      var loaded := LoadSet(flash);
      if loaded.Some? {
        active, bank := loaded.value.generation.id, loaded.value.cues;
      }
    }

    method Ask() returns (ok: bool)
      modifies this`answers
      ensures ok <==> old(Says(0))
      ensures answers == if old(answers) == [] then [] else old(answers)[1..]
    {
      ok := true;
      if answers != [] {
        ok, answers := answers[0], answers[1..];
      }
    }

    /** Every disk since `before` installs what the flash did at the start. */
    ghost predicate Steady(before: seq<Disk>, was: Option<Loaded>)
      reads flash
    {
      && before <= flash.trace
      && forall k | |before| <= k < |flash.trace| ::
           Bootable(flash.tools, flash.trace[k]) && Load(flash.tools, flash.trace[k]) == was
    }

    /** The flash itself still installs it. */
    ghost predicate Installs(was: Option<Loaded>)
      reads flash
    {
      Bootable(flash.tools, flash.files) && Load(flash.tools, flash.files) == was
    }

    /** No disk since `before` is larger than `bound`. */
    ghost predicate Within(before: seq<Disk>, bound: nat)
      reads flash
    {
      before <= flash.trace && Under(flash.trace, |before|, bound)
    }

    static ghost predicate Under(trace: seq<Disk>, from: nat, bound: nat) {
      forall k | from <= k < |trace| :: Total(trace[k]) <= bound
    }

    /** What is fetched is what the generation says. */
    predicate Fetched(g: Generation, i: nat, fetched: Option<seq<byte>>)
      requires WellFormed(g) && i < CUES
    {
      fetched.Some? && Good(flash.tools, g.items[i], fetched.value)
    }

    /** Every step so far works and every check says yes. */
    predicate Undisturbed()
      reads this, flash
    {
      flash.faults == [] && answers == []
    }

    /** What the next check but `k` says. */
    predicate Says(k: nat)
      reads this`answers
    {
      k < |answers| ==> answers[k]
    }

    /** Nothing has been written since `before`. */
    predicate Left(was: Disk, before: nat)
      reads flash
    {
      flash.files == was && |flash.trace| == before
    }

    /** Check one cue that was fetched, and whether it may be written. */
    method MayStage(g: Generation, i: nat, fetched: Option<seq<byte>>) returns (ok: bool)
      requires WellFormed(g) && i < CUES
      modifies this`answers
      ensures ok <==> old(Says(0) && Says(1) && Says(2)) && Fetched(g, i, fetched)
      ensures old(Undisturbed()) ==> Undisturbed()
    {
      if fetched.None? || |fetched.value| != g.items[i].size || flash.tools.digest(fetched.value) != g.items[i].sha {
        return false;
      }
      ok := Ask();
      if ok {
        ok := Ask();
      }
      if !ok || !flash.tools.plays(fetched.value, g.items[i].rate, g.items[i].channels) {
        return false;
      }
      ok := Ask();
    }

    /** Fetch, check and stage one cue. Nothing is written without the store's ownership, an idle device and a
        cue as promised. `start` is the disk before the first cue was staged. */
    method StageOne(g: Generation, i: nat, fetched: Option<seq<byte>>, ghost before: seq<Disk>,
                    ghost cues: seq<seq<byte>>, ghost start: Disk, ghost bound: nat)
      returns (ok: bool)
      requires WellFormed(g) && i < CUES && |cues| == i && Staged(flash.tools, flash.files, g, cues, i)
      requires Installs(Load(flash.tools, flash.files)) && IdOf(Load(flash.tools, flash.files)) != g.id
      requires Steady(before, Load(flash.tools, flash.files))
      requires Tracks(start, flash.files, g, i) && (FitsUpTo(start, g, i, bound) ==> Within(before, bound))
      modifies this`answers, flash`faults, flash`files, flash`trace
      ensures Installs(Load(flash.tools, old(flash.files))) && Steady(before, Load(flash.tools, old(flash.files)))
      ensures FitsUpTo(start, g, i + 1, bound) ==> Within(before, bound)
      ensures ok ==> fetched.Some? && Staged(flash.tools, flash.files, g, cues + [fetched.value], i + 1)
      ensures ok ==> Tracks(start, flash.files, g, i + 1)
      ensures ok && Within(before, bound) ==> old(Within(before, bound)) && Peak(start, g, i) <= bound
      ensures old(Undisturbed()) && Fetched(g, i, fetched) ==> ok
      ensures old(Undisturbed()) ==> Undisturbed()
      ensures ok ==> old(Says(0) && Says(1) && Says(2)) && Fetched(g, i, fetched)
      ensures !old(Says(0) && Says(1) && Says(2)) || !Fetched(g, i, fetched) ==>
                Left(old(flash.files), |old(flash.trace)|)
    {
      hide Load, Bootable, Tracks, Peak, Total;
      ok := MayStage(g, i, fetched);
      if !ok {
        return;
      }
      var data := fetched.value;
      ghost var was, trace := flash.files, flash.trace;
      assert (cues + [data])[..i] == cues;
      ok := WriteCue(flash, g, i, data);
      StagingStep(g, i, data, was, trace, before);
      StagingSizes(g, i, data, start, was, trace, before, bound);
      if ok {
        StagedOneMore(flash.tools, was, g, cues + [data], i);
        TracksOneMore(start, was, g, i, data);
        StagingPeak(g, i, data, start, was, trace, before, bound);
      }
    }

    /** While a cue is written the disk is at most at its peak. */
    lemma StagingSizes(g: Generation, i: nat, data: seq<byte>, start: Disk, was: Disk, trace: seq<Disk>,
                       before: seq<Disk>, bound: nat)
      requires WellFormed(g) && i < CUES && Tracks(start, was, g, i) && |data| == g.items[i].size
      requires flash.Steps(was, trace, CueFile(g.id, i), data) && before <= trace
      requires FitsUpTo(start, g, i, bound) ==> Under(trace, |before|, bound)
      ensures FitsUpTo(start, g, i + 1, bound) ==> Within(before, bound)
    {
      hide Tracks, Peak, Total;
      if FitsUpTo(start, g, i + 1, bound) {
        TracksOneMore(start, was, g, i, data);
        TracksWithin(start, was, g, i, bound);
      }
    }

    /** And once it is written, the disk has been there. */
    lemma StagingPeak(g: Generation, i: nat, data: seq<byte>, start: Disk, was: Disk, trace: seq<Disk>,
                      before: seq<Disk>, bound: nat)
      requires WellFormed(g) && i < CUES && Tracks(start, was, g, i) && |data| == g.items[i].size
      requires flash.Filled(was, trace, CueFile(g.id, i), data) && before <= trace
      ensures Within(before, bound) ==> Peak(start, g, i) <= bound && Under(trace, |before|, bound)
    {
      hide Tracks, Peak, Total;
      TracksOneMore(start, was, g, i, data);
    }

    lemma StagingStep(g: Generation, i: nat, data: seq<byte>, start: Disk, trace: seq<Disk>, before: seq<Disk>)
      requires WellFormed(g) && i < CUES && Bootable(flash.tools, start) && IdOf(Load(flash.tools, start)) != g.id
      requires flash.Steps(start, trace, CueFile(g.id, i), data) && before <= trace
      requires Flash.Midway(start, flash.files, CueFile(g.id, i), data)
      requires forall k | |before| <= k < |trace| ::
        Bootable(flash.tools, trace[k]) && Load(flash.tools, trace[k]) == Load(flash.tools, start)
      ensures Steady(before, Load(flash.tools, start)) && Installs(Load(flash.tools, start))
    {
      StagingKeeps(flash.tools, start, flash.files, g.id, i, data);
      forall k | |trace| <= k < |flash.trace|
        ensures Bootable(flash.tools, flash.trace[k]) && Load(flash.tools, flash.trace[k]) == Load(flash.tools, start)
      {
        StagingKeeps(flash.tools, start, flash.trace[k], g.id, i, data);
      }
    }

    /** Stage every cue of a generation. The disk stays within a bound if the peaks do, and when all cues are
        staged it has been at each of them. */
    method StageAll(g: Generation, fetched: seq<Option<seq<byte>>>, ghost bound: nat)
      returns (ok: bool, cues: seq<seq<byte>>)
      requires WellFormed(g) && |fetched| == CUES
      requires Bootable(flash.tools, flash.files) && IdOf(Load(flash.tools, flash.files)) != g.id
      modifies this`answers, flash`faults, flash`files, flash`trace
      ensures Installs(Load(flash.tools, old(flash.files)))
      ensures Steady(old(flash.trace), Load(flash.tools, old(flash.files)))
      ensures FitsUpTo(old(flash.files), g, CUES, bound) ==> Within(old(flash.trace), bound)
      ensures ok ==> Tracks(old(flash.files), flash.files, g, CUES)
      ensures ok && Total(old(flash.files)) <= bound && Within(old(flash.trace), bound) ==>
                FitsUpTo(old(flash.files), g, CUES, bound)
      ensures ok ==> |cues| == CUES && Staged(flash.tools, flash.files, g, cues, CUES)
      ensures old(Undisturbed()) && (forall i | 0 <= i < CUES :: Fetched(g, i, fetched[i])) ==> ok
      ensures old(Undisturbed()) ==> Undisturbed()
      ensures ok ==> forall i | 0 <= i < CUES :: fetched[i] == Some(cues[i])
    {
      hide Load, Bootable, Staged, Total, Tracks, Peak;
      ghost var was, start, before := Load(flash.tools, flash.files), flash.files, flash.trace;
      cues, ok := [], true;
      NothingStaged(flash.tools, flash.files, g);
      TracksStart(start, g);
      var i := 0;
      while i < CUES && ok
        invariant i <= CUES && Installs(was) && Steady(before, was)
        invariant FitsUpTo(start, g, i, bound) ==> Within(before, bound)
        invariant ok ==> Tracks(start, flash.files, g, i)
        invariant ok && Total(start) <= bound && Within(before, bound) ==> FitsUpTo(start, g, i, bound)
        invariant ok ==> |cues| == i && Staged(flash.tools, flash.files, g, cues, i)
        invariant old(Undisturbed()) && (forall j | 0 <= j < CUES :: Fetched(g, j, fetched[j])) ==> ok
        invariant old(Undisturbed()) ==> Undisturbed()
        invariant ok ==> forall j | 0 <= j < i :: fetched[j] == Some(cues[j])
        decreases CUES - i, ok
      {
        ok := StageOne(g, i, fetched[i], before, cues, start, bound);
        if ok {
          cues := cues + [fetched[i].value];
        }
        i := i + 1;
      }
    }

    /** A start from any disk since `before` finds the whole old set or the whole new one. */
    ghost predicate OldOrNew(before: seq<Disk>, was: Option<Loaded>, next: Loaded)
      reads flash
    {
      && before <= flash.trace
      && forall k | |before| <= k < |flash.trace| :: Either(flash.tools, flash.trace[k], was, next)
    }

    static ghost predicate Either(t: Tools, d: Disk, was: Option<Loaded>, next: Loaded) {
      Bootable(t, d) && (Load(t, d) == was || Load(t, d) == Some(next))
    }

    /** A cut in the middle of filling a temporary file is no worse than one between two steps. */
    static lemma TornWrite(t: Tools, d: Disk, e: Disk, file: string, was: Option<Loaded>, next: Loaded)
      requires Either(t, d, was, next) && Agree(d, e, {Part(file)})
      ensures Either(t, e, was, next)
    {
      PartsDoNotMatter(t, d, e, file);
    }

    static lemma ManifestMidway(t: Tools, start: Disk, d: Disk, g: Generation, cues: seq<seq<byte>>,
                                manifest: seq<byte>)
      requires |cues| == CUES && WellFormed(g) && Staged(t, start, g, cues, CUES) && Bootable(t, start)
      requires Parse(t, manifest) == Some(g) && |manifest| < MANIFEST_MAX - 1
      requires Flash.Midway(start, d, MANIFEST, manifest)
      ensures Either(t, d, Load(t, start), Loaded(g, cues))
    {
      if Agree(start, d, {Part(MANIFEST)}) {
        PartsDoNotMatter(t, start, d, MANIFEST);
      } else {
        CommitInstalls(t, start, g, cues, manifest);
      }
    }

    /** No cue is leased. */
    predicate Unread()
      reads this`readers
    {
      forall i | 0 <= i < |readers| :: readers[i] == 0
    }

    method MayCommit() returns (ok: bool)
      requires |readers| == CUES
      modifies this`answers
      ensures ok <==> old(Says(0)) && Unread()
      ensures old(Undisturbed()) ==> Undisturbed()
    {
      ok := Ask();
      ok := ok && !exists i | 0 <= i < CUES :: readers[i] > 0;
    }

    /** Switch to a staged generation: not while a cue is leased, and the memory only after the flash. */
    method Switch(g: Generation, manifest: seq<byte>, cues: seq<seq<byte>>, ghost bound: nat) returns (ok: bool)
      requires Valid() && active != g.id && WellFormed(g) && |cues| == CUES
      requires Staged(flash.tools, flash.files, g, cues, CUES) && Parse(flash.tools, manifest) == Some(g)
      requires |manifest| < MANIFEST_MAX
      modifies this, flash`faults, flash`files, flash`trace
      ensures |manifest| < MANIFEST_MAX - 1 ==>
        Valid() && OldOrNew(old(flash.trace), Load(flash.tools, old(flash.files)), Loaded(g, cues))
      ensures !ok ==> Valid() && Steady(old(flash.trace), Load(flash.tools, old(flash.files)))
      ensures !ok ==> Load(flash.tools, flash.files) == Load(flash.tools, old(flash.files))
      ensures !ok ==> active == old(active) && bank == old(bank) && readers == old(readers)
      ensures ok ==> active == g.id && bank == cues && old(Unread())
      ensures ok ==> flash.files == Flash.Written(old(flash.files), MANIFEST, manifest)
      ensures Total(old(flash.files)) <= bound && Total(old(flash.files) - {Part(MANIFEST)}) + |manifest| <= bound ==>
                Within(old(flash.trace), bound)
      ensures ok && Within(old(flash.trace), bound) ==>
                Total(old(flash.files) - {Part(MANIFEST)}) + |manifest| <= bound
      ensures old(Undisturbed()) && old(Unread()) ==> ok
      ensures !old(Says(0)) || !old(Unread()) ==> !ok && Left(old(flash.files), |old(flash.trace)|)
      ensures old(Undisturbed()) ==> Undisturbed()
      ensures old(flash.trace) <= flash.trace
    {
      StagedSized(flash.tools, flash.files, g, cues);
      hide Load, Bootable, Staged, Parse, AllSized, Total, Unread;
      hide Flash.Midway, Flash.Steps, Flash.Filled, Flash.Untouched;
      ghost var start, before := flash.files, flash.trace;
      ok := MayCommit();
      if !ok {
        return;
      }
      ok := Commit(flash, g, manifest);
      SwitchStep(start, before, g, cues, manifest, ok);
      SwitchSizes(start, before, manifest, ok, bound);
      if ok {
        bank, active, readers := cues, g.id, seq(CUES, _ => 0);
      }
    }

    /** The disk is within a bound while the manifest is written if its peak is, and the peak is reached. */
    lemma SwitchSizes(start: Disk, before: seq<Disk>, manifest: seq<byte>, ok: bool, bound: nat)
      requires flash.Steps(start, before, MANIFEST, manifest)
      requires ok ==> flash.Filled(start, before, MANIFEST, manifest)
      ensures before <= flash.trace
      ensures Total(start) <= bound && Total(start - {Part(MANIFEST)}) + |manifest| <= bound ==> Within(before, bound)
      ensures ok && Within(before, bound) ==> Total(start - {Part(MANIFEST)}) + |manifest| <= bound
    {
      hide Total;
      TotalWith(start, Part(MANIFEST), manifest);
    }

    static lemma StagedSized(t: Tools, d: Disk, g: Generation, cues: seq<seq<byte>>)
      requires WellFormed(g) && |cues| == CUES && Staged(t, d, g, cues, CUES)
      ensures AllSized(d, g)
    {
    }

    lemma SwitchStep(start: Disk, before: seq<Disk>, g: Generation, cues: seq<seq<byte>>, manifest: seq<byte>, ok: bool)
      requires |cues| == CUES && WellFormed(g) && Staged(flash.tools, start, g, cues, CUES)
      requires Bootable(flash.tools, start)
      requires Parse(flash.tools, manifest) == Some(g) && |manifest| < MANIFEST_MAX
      requires flash.Steps(start, before, MANIFEST, manifest) && Flash.Midway(start, flash.files, MANIFEST, manifest)
      requires if ok then flash.files == Flash.Written(start, MANIFEST, manifest)
               else Agree(start, flash.files, {Part(MANIFEST)}) && flash.Untouched(start, before, MANIFEST)
      ensures |manifest| < MANIFEST_MAX - 1 ==> OldOrNew(before, Load(flash.tools, start), Loaded(g, cues))
      ensures |manifest| < MANIFEST_MAX - 1 && ok ==> Installs(Some(Loaded(g, cues)))
      ensures !ok ==> Installs(Load(flash.tools, start)) && Steady(before, Load(flash.tools, start))
    {
      if |manifest| < MANIFEST_MAX - 1 {
        forall k | |before| <= k < |flash.trace|
          ensures Either(flash.tools, flash.trace[k], Load(flash.tools, start), Loaded(g, cues))
        {
          ManifestMidway(flash.tools, start, flash.trace[k], g, cues, manifest);
        }
      }
      if ok {
        CommitInstalls(flash.tools, start, g, cues, manifest);
      } else {
        PartsDoNotMatter(flash.tools, start, flash.files, MANIFEST);
        forall k | |before| <= k < |flash.trace|
          ensures Bootable(flash.tools, flash.trace[k]) && Load(flash.tools, flash.trace[k]) == Load(flash.tools, start)
        {
          PartsDoNotMatter(flash.tools, start, flash.trace[k], MANIFEST);
        }
      }
    }

    /** Clean up, if the device is idle, and see whether the candidate would fit. */
    method Prepare(g: Generation) returns (ok: bool)
      requires Valid() && WellFormed(g)
      modifies this`answers, flash`faults, flash`files, flash`trace
      ensures Valid() && Installs(Load(flash.tools, old(flash.files)))
      ensures Steady(old(flash.trace), Load(flash.tools, old(flash.files)))
      ensures ok ==> Demand(flash.files, g) <= flash.limit
      ensures old(Undisturbed()) ==> Undisturbed() && flash.files == Cleaned(old(flash.files), active)
      ensures old(Undisturbed()) ==> (ok <==> Demand(Cleaned(old(flash.files), active), g) <= flash.limit)
      ensures old(Undisturbed()) ==> NoneOwn(flash.files, g.id) || g.id == active
      ensures ok ==> old(Says(0) && Says(2))
      ensures !old(Says(0) && Says(1)) ==> Left(old(flash.files), |old(flash.trace)|)
    {
      hide Load, Bootable, Kept;
      if g.id != active {
        CleanLeavesStrangers(flash.files, active, g.id);
      }
      ok := Ask();
      if !ok {
        return;
      }
      var idle := Ask();
      if idle {
        ghost var start, before := flash.files, flash.trace;
        Clean(flash, active);
        CleaningSteps(start, before, active);
      }
      ok := Ask();
      if ok {
        ok := HasSpace(flash, g);
      }
    }

    lemma CleaningSteps(start: Disk, before: seq<Disk>, id: string)
      requires Bootable(flash.tools, start) && IdOf(Load(flash.tools, start)) == id
      requires before <= flash.trace && Kept(start, flash.files, id)
      requires forall k | |before| <= k < |flash.trace| :: Kept(start, flash.trace[k], id)
      ensures Steady(before, Load(flash.tools, start)) && Installs(Load(flash.tools, start))
      ensures Within(before, Total(start))
    {
      CleaningKeeps(flash.tools, start, flash.files, id);
      TotalPart(start, flash.files);
      forall k | |before| <= k < |flash.trace|
        ensures Bootable(flash.tools, flash.trace[k]) && Load(flash.tools, flash.trace[k]) == Load(flash.tools, start)
        ensures Total(flash.trace[k]) <= Total(start)
      {
        CleaningKeeps(flash.tools, start, flash.trace[k], id);
        TotalPart(start, flash.trace[k]);
      }
    }

    /** Stage a candidate that fits and switch to it. */
    method Install(g: Generation, manifest: seq<byte>, fetched: seq<Option<seq<byte>>>)
      returns (ok: bool, cues: seq<seq<byte>>)
      requires Valid() && active != g.id && WellFormed(g) && |fetched| == CUES
      requires Parse(flash.tools, manifest) == Some(g) && |manifest| < MANIFEST_MAX
      requires Demand(flash.files, g) <= flash.limit
      modifies this, flash`faults, flash`files, flash`trace
      ensures ok ==> |cues| == CUES && active == g.id && bank == cues
      ensures ok ==> forall i | 0 <= i < CUES :: old(readers)[i] == 0
      ensures !ok ==> Valid() && Installs(Load(flash.tools, old(flash.files)))
      ensures !ok ==> Steady(old(flash.trace), Load(flash.tools, old(flash.files)))
      ensures !ok ==> active == old(active) && bank == old(bank) && readers == old(readers)
      ensures ok && |manifest| < MANIFEST_MAX - 1 ==>
                && Valid() && Installs(Some(Loaded(g, cues)))
                && OldOrNew(old(flash.trace), Load(flash.tools, old(flash.files)), Loaded(g, cues))
      ensures ok && |manifest| == MANIFEST_MAX - 1 ==>
        MANIFEST in flash.files && flash.files[MANIFEST] == manifest && Load(flash.tools, flash.files) == None
      ensures Fits(old(flash.files), g, |manifest|, flash.limit) ==> Within(old(flash.trace), flash.limit)
      ensures ok && Total(old(flash.files)) <= flash.limit && Within(old(flash.trace), flash.limit) ==>
                Fits(old(flash.files), g, |manifest|, flash.limit)
      ensures OwnComplete(old(flash.files), g) ==> Within(old(flash.trace), flash.limit)
      ensures old(Undisturbed()) && (forall i | 0 <= i < CUES :: Fetched(g, i, fetched[i]) && old(readers)[i] == 0) ==>
                ok
      ensures old(Undisturbed()) ==> Undisturbed()
      ensures ok ==> forall i | 0 <= i < CUES :: Fetched(g, i, fetched[i]) && fetched[i] == Some(cues[i])
    {
      hide Load, Bootable, Staged, Parse, Total, Tracks, ManifestPeak, FitsUpTo, OwnComplete, Under, Demand, WellFormed;
      ghost var start, before := flash.files, flash.trace;
      if OwnComplete(start, g) {
        DemandCovers(start, g, |manifest|);
        FitsMore(start, g, |manifest|, Demand(start, g), flash.limit);
      }
      ok, cues := StageAll(g, fetched, flash.limit);
      ghost var staged, middle := flash.files, flash.trace;
      if ok {
        ok := Ask();
      }
      if ok {
        ok := Switch(g, manifest, cues, flash.limit);
        CommitInstalls(flash.tools, staged, g, cues, manifest);
        if ok {
          StagedFetched(g, staged, cues, fetched);
        }
        InstallFits(start, staged, g, |manifest|, before, middle, flash.trace, flash.limit, ok);
      }
    }

    lemma StagedFetched(g: Generation, d: Disk, cues: seq<seq<byte>>, fetched: seq<Option<seq<byte>>>)
      requires WellFormed(g) && |cues| == CUES == |fetched| && Staged(flash.tools, d, g, cues, CUES)
      requires forall i | 0 <= i < CUES :: fetched[i] == Some(cues[i])
      ensures forall i | 0 <= i < CUES :: Fetched(g, i, fetched[i])
    {
    }

    /** The peaks of staging and of the switch together. */
    static lemma InstallFits(start: Disk, staged: Disk, g: Generation, length: nat, before: seq<Disk>,
                             middle: seq<Disk>, last: seq<Disk>, limit: nat, ok: bool)
      requires WellFormed(g) && before <= middle <= last && Tracks(start, staged, g, CUES)
      requires FitsUpTo(start, g, CUES, limit) ==> Under(middle, |before|, limit)
      requires Total(start) <= limit && Under(middle, |before|, limit) ==> FitsUpTo(start, g, CUES, limit)
      requires Total(staged) <= limit && Total(staged - {Part(MANIFEST)}) + length <= limit ==>
                 Under(last, |middle|, limit)
      requires ok && Under(last, |middle|, limit) ==> Total(staged - {Part(MANIFEST)}) + length <= limit
      ensures Fits(start, g, length, limit) ==> Under(last, |before|, limit)
      ensures ok && Total(start) <= limit && Under(last, |before|, limit) ==> Fits(start, g, length, limit)
    {
      hide Total, Tracks, FitsUpTo, ManifestPeak;
      TracksManifest(start, staged, g, length);
      if FitsUpTo(start, g, CUES, limit) {
        TracksWithin(start, staged, g, CUES, limit);
      }
      assert forall k | 0 <= k < |middle| :: last[k] == middle[k];
    }

    /** What a refresh needs when nothing goes wrong: another generation, room for it once the flash is clean,
        every cue as its manifest says, and no cue in use. */
    ghost predicate Needs(reply: Reply)
      requires |reply.cues| == CUES == |readers|
      reads this, flash
    {
      Announced(reply).Some? &&
      var g := Announced(reply).value;
      && g.id != active && Demand(Cleaned(flash.files, active), g) <= flash.limit
      && forall i | 0 <= i < CUES ::
           && reply.cues[i].Some? && |reply.cues[i].value| == g.items[i].size
           && flash.tools.digest(reply.cues[i].value) == g.items[i].sha
           && flash.tools.plays(reply.cues[i].value, g.items[i].rate, g.items[i].channels) && readers[i] == 0
    }

    lemma NeedsMeans(reply: Reply)
      requires |reply.cues| == CUES == |readers|
      ensures Needs(reply) <==>
                && Announced(reply).Some? && Announced(reply).value.id != active
                && Demand(Cleaned(flash.files, active), Announced(reply).value) <= flash.limit
                && forall i | 0 <= i < CUES :: Fetched(Announced(reply).value, i, reply.cues[i]) && readers[i] == 0
    {
    }

    /** One refresh from the gateway's reply. Whatever happens and wherever the power is cut, a start finds
        the old set or the new one; the exception is a manifest one byte too long for the loader. The new set
        is what was fetched. When nothing goes wrong the refresh succeeds exactly with what it needs, and no
        other generation is left on the flash. Without a reason to change anything, or the store's ownership,
        the flash is not touched. */
    method Refresh(reply: Reply) returns (ok: bool, ghost next: Option<Loaded>)
      requires Valid() && |reply.cues| == CUES
      modifies this, flash`faults, flash`files, flash`trace
      ensures next.None? ==> Valid() && Installs(Load(flash.tools, old(flash.files)))
      ensures next.None? ==> Steady(old(flash.trace), Load(flash.tools, old(flash.files)))
      ensures next.None? ==> active == old(active) && readers == old(readers)
      ensures ok <==> next.Some? || (Announced(reply).Some? && Announced(reply).value.id == old(active))
      ensures next.Some? ==> Announced(reply) == Some(next.value.generation) && active == next.value.generation.id
      ensures next.Some? ==> bank == next.value.cues && forall i | 0 <= i < CUES :: old(readers)[i] == 0
      ensures next.Some? && |reply.manifest.value| < MANIFEST_MAX - 1 ==>
                && Valid() && Installs(next)
                && OldOrNew(old(flash.trace), Load(flash.tools, old(flash.files)), next.value)
      ensures next.Some? && |reply.manifest.value| == MANIFEST_MAX - 1 ==> !Bootable(flash.tools, flash.files)
      ensures next.Some? ==> CuesAsPromised(flash.tools, next.value)
                             && forall i | 0 <= i < CUES :: reply.cues[i] == Some(next.value.cues[i])
      ensures old(Undisturbed()) ==> (next.Some? <==> old(Needs(reply)))
      ensures old(Undisturbed()) && next.Some? ==> forall n | n in flash.files :: !Doomed(n, active)
      ensures Announced(reply).None? || Announced(reply).value.id == old(active) || !old(Says(0)) ==>
                Left(old(flash.files), |old(flash.trace)|)
    {
      hide Load, Bootable, Parse, WellFormed, Total, Kept, Demand, Cleaned, Doomed, Needs, Fetched;
      next := None;
      NeedsMeans(reply);
      var announced := Announced(reply);
      if announced.None? {
        return false, None;
      }
      var g := announced.value;
      if g.id == active {
        return true, None;
      }
      ok := Prepare(g);
      if !ok {
        return;
      }
      var cues;
      ok, cues := Install(g, reply.manifest.value, reply.cues);
      if ok {
        next := Some(Loaded(g, cues));
        FetchedPromised(g, cues, reply.cues);
        ghost var start, before := flash.files, flash.trace;
        Clean(flash, active);
        if |reply.manifest.value| < MANIFEST_MAX - 1 {
          CleaningSteps(start, before, active);
        } else {
          StillUnloadable(start, flash.files, active);
        }
        CleanedMeans(start, active);
      }
    }

    lemma FetchedPromised(g: Generation, cues: seq<seq<byte>>, fetched: seq<Option<seq<byte>>>)
      requires WellFormed(g) && |cues| == CUES == |fetched|
      requires forall i | 0 <= i < CUES :: Fetched(g, i, fetched[i]) && fetched[i] == Some(cues[i])
      ensures CuesAsPromised(flash.tools, Loaded(g, cues))
    {
    }

    static lemma CleanedMeans(d: Disk, id: string)
      ensures forall n | n in Cleaned(d, id) :: !Doomed(n, id)
    {
    }

    /** The generation a reply announces, if it can be fetched and read. */
    function Announced(reply: Reply): (g: Option<Generation>)
      ensures g.Some? ==> WellFormed(g.value) && reply.manifest.Some? && |reply.manifest.value| < MANIFEST_MAX
                          && Parse(flash.tools, reply.manifest.value) == g
    {
      if reply.manifest.Some? && 0 < |reply.manifest.value| < MANIFEST_MAX then Parse(flash.tools, reply.manifest.value)
      else None
    }

    lemma StillUnloadable(start: Disk, d: Disk, id: string)
      requires MANIFEST in start && |start[MANIFEST]| == MANIFEST_MAX - 1 && Kept(start, d, id)
      ensures !Bootable(flash.tools, d)
    {
      assert |MANIFEST| < 69;
    }

    /** Every disk since `before` installs a set that is known. */
    ghost predicate KnownSince(before: seq<Disk>, was: Option<Loaded>, visits: seq<Visit>)
      reads flash
    {
      && before <= flash.trace
      && forall k | |before| <= k < |flash.trace| ::
           Bootable(flash.tools, flash.trace[k]) && Known(flash.tools, was, visits, Load(flash.tools, flash.trace[k]))
    }

    /** Any number of refreshes: wherever the power is cut, a start finds the set there was at first or a
        complete set announced since. */
    method RefreshAll(visits: seq<Visit>)
      requires Valid() && forall i | 0 <= i < |visits| :: Loadable(visits[i])
      modifies this, flash`faults, flash`files, flash`trace
      ensures Valid() && Known(flash.tools, Load(flash.tools, old(flash.files)), visits, Load(flash.tools, flash.files))
      ensures KnownSince(old(flash.trace), Load(flash.tools, old(flash.files)), visits)
    {
      hide Load, Bootable, Parse, WellFormed;
      ghost var was, before := Load(flash.tools, flash.files), flash.trace;
      for i := 0 to |visits|
        invariant Valid() && Known(flash.tools, was, visits, Load(flash.tools, flash.files))
        invariant KnownSince(before, was, visits)
      {
        readers := visits[i].readers;
        ghost var current, trace := Load(flash.tools, flash.files), flash.trace;
        var ok, next := Refresh(visits[i].reply);
        if next.Some? {
          assert Announces(flash.tools, visits[i], next.value.generation);
        }
        assert forall k | |before| <= k < |trace| :: flash.trace[k] == trace[k];
      }
    }
  }

  /** Any number of starts, with the power cut at any step of any refresh: the next start is in step with the
      flash and finds the set there was at first or a complete set announced since, never a mixture. */
  method Lives(tools: Tools, limit: nat, disk: Disk, sessions: seq<Session>) returns (last: Disk, ghost all: seq<Visit>)
    requires Bootable(tools, disk)
    requires forall i, j | 0 <= i < |sessions| && 0 <= j < |sessions[i].visits| :: Loadable(sessions[i].visits[j])
    ensures forall v | v in all :: exists i | 0 <= i < |sessions| :: v in sessions[i].visits
    ensures Bootable(tools, last) && Known(tools, Load(tools, disk), all, Load(tools, last))
    ensures Load(tools, last).Some? ==> CuesAsPromised(tools, Load(tools, last).value)
  {
    LoadsAsPromised(tools);
    hide Load, Bootable, Parse;
    last, all := disk, [];
    for i := 0 to |sessions|
      invariant forall v | v in all :: exists i | 0 <= i < |sessions| :: v in sessions[i].visits
      invariant Bootable(tools, last) && Known(tools, Load(tools, disk), all, Load(tools, last))
    {
      var s := sessions[i];
      var flash := new Flash(tools, limit, last, s.faults);
      var cache := new Cache(flash, s.answers);
      cache.RefreshAll(s.visits);
      ghost var found := Load(tools, last);
      last := if s.cut < |flash.trace| then flash.trace[s.cut] else flash.files;
      KnownMore(tools, Load(tools, disk), all, found, s.visits, Load(tools, last));
      all := all + s.visits;
      if s.torn.Some? {
        var (file, bytes) := s.torn.value;
        PartsDoNotMatter(tools, last, last[Part(file) := bytes], file);
        last := last[Part(file) := bytes];
      }
    }
  }

  lemma LoadsAsPromised(t: Tools)
    ensures forall d :: Load(t, d).Some? ==> CuesAsPromised(t, Load(t, d).value)
  {
    forall d | Load(t, d).Some?
      ensures CuesAsPromised(t, Load(t, d).value)
    {
      LoadMeans(t, d, Load(t, d).value);
    }
  }

  lemma KnownMore(t: Tools, first: Option<Loaded>, all: seq<Visit>, found: Option<Loaded>, more: seq<Visit>,
                  now: Option<Loaded>)
    requires Known(t, first, all, found) && Known(t, found, more, now)
    ensures Known(t, first, all + more, now)
  {
    if now == found {
      if found != first {
        var i :| 0 <= i < |all| && Announces(t, all[i], now.value.generation);
        assert (all + more)[i] == all[i];
      }
    } else {
      var i :| 0 <= i < |more| && Announces(t, more[i], now.value.generation);
      assert (all + more)[|all| + i] == more[i];
    }
  }

  function Short(id: string): Generation {
    Generation(id, seq(CUES, _ => Item([], 4, 24000, 1)))
  }

  const SHORT_DEMAND: nat := 2 * MANIFEST_MAX + 4 * CUES + 4

  lemma ShortOverfilled(id: string)
    requires Hex(id)
    ensures var d: Disk, g := map[id + "_x.bin" := seq(SHORT_DEMAND, _ => 0)], Short(id);
      && WellFormed(g) && g.id == id && MANIFEST !in d && Total(d) <= SHORT_DEMAND
      && Cleaned(d, "") == d && Demand(d, g) <= SHORT_DEMAND && !Fits(d, g, 1, SHORT_DEMAND)
  {
    var g := Short(id);
    FourEach(g, CUES);
    StrangerOverfills(g, SHORT_DEMAND);
  }

  /** A run in which nothing fails, the cleaner has run and the space check says yes, and which still takes the
      store over its limit. */
  method LimitExceeded() returns (cache: Cache, spacious: bool)
    ensures spacious && exists k | 0 <= k < |cache.flash.trace| :: Total(cache.flash.trace[k]) > cache.flash.limit
  {
    hide Load, Total, Demand, Fits, Short, Cleaned, Doomed, OwnComplete, NoneOwn, WellFormed;
    var id := seq(64, _ => 'a');
    var g := Short(id);
    var disk: Disk := map[id + "_x.bin" := seq(SHORT_DEMAND, _ => 0)];
    ShortOverfilled(id);
    var flash := new Flash(Tools(_ => Some(g), _ => [], (_, _, _) => true), SHORT_DEMAND, disk, []);
    cache := new Cache(flash, []);
    NothingLoads(flash.tools, disk);
    spacious := cache.Prepare(g);
    ghost var before := flash.trace;
    var fetched := seq(CUES, _ => Some([0, 0, 0, 0]));
    ShortFetched(cache, g, id, fetched);
    var ok, cues := cache.Install(g, [0], fetched);
    assert ok && !cache.Within(before, SHORT_DEMAND);
  }

  lemma NothingLoads(t: Tools, d: Disk)
    requires MANIFEST !in d
    ensures Load(t, d) == None
  {
  }

  lemma ShortFetched(cache: Cache, g: Generation, id: string, fetched: seq<Option<seq<byte>>>)
    requires WellFormed(g) && g == Short(id) && fetched == seq(CUES, _ => Some([0, 0, 0, 0]))
    requires cache.flash.tools == Tools(cache.flash.tools.parse, _ => [], (_, _, _) => true)
    ensures forall i | 0 <= i < CUES :: cache.Fetched(g, i, fetched[i])
  {
  }

  lemma {:induction false} FourEach(g: Generation, n: nat)
    requires n <= CUES && g.items == seq(CUES, _ => Item([], 4, 24000, 1))
    ensures Sizes(g.items, n) == 4 * n && Largest(g.items, n) == if n == 0 then 0 else 4
  {
    if n > 0 {
      FourEach(g, n - 1);
    }
  }
}
