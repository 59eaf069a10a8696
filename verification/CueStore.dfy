/** What a cue directory means: the names of the files, the set of cues a disk installs, what may be
    deleted from it and how large it is. */
module CueStore {
  import opened Bytes
  import opened Options

  const CUES: nat := 14
  const MANIFEST: string := "active-generation.json"
  const MANIFEST_MAX: nat := 8192
  const STORE_LIMIT: nat := 1572864
  const CUE_MAX: nat := 240000

  type Disk = map<string, seq<byte>>
  type Digest = seq<byte>

  datatype Item = Item(sha: Digest, size: nat, rate: nat, channels: nat)
  datatype Generation = Generation(id: string, items: seq<Item>)

  /** The parser of manifests, the hash and the trial decoding, all deterministic. */
  datatype Tools = Tools(
    parse: seq<byte> -> Option<Generation>,
    digest: seq<byte> -> Digest,
    plays: (seq<byte>, nat, nat) -> bool)

  // ---- names ----

  predicate Hex(id: string) {
    |id| == 64 && forall i | 0 <= i < 64 :: '0' <= id[i] <= '9' || 'a' <= id[i] <= 'f'
  }

  function CueName(i: nat): (s: string)
    requires i < CUES
    ensures 4 <= |s| <= 17
  {
    match i
    case 0 => "listening" case 1 => "processing" case 2 => "offline" case 3 => "ready" case 4 => "done"
    case 5 => "cancelled" case 6 => "transcribing" case 7 => "thinking" case 8 => "synthesizing"
    case 9 => "answering" case 10 => "error" case 11 => "timeout" case 12 => "recognition_error"
    case _ => "synthesis_error"
  }

  lemma CueNamesDiffer(i: nat, j: nat)
    requires i < CUES && j < CUES && CueName(i) == CueName(j)
    ensures i == j
  {
    var a, b := CueName(i), CueName(j);
    assert |a| == |b| && a[0] == b[0] && a[1] == b[1];
  }

  function CueFile(id: string, i: nat): string
    requires i < CUES
  {
    id + "_" + CueName(i) + ".mp3"
  }

  function Part(file: string): string {
    file + ".part"
  }

  lemma CueFilesDiffer(id: string, i: nat, id': string, j: nat)
    requires i < CUES && j < CUES && Hex(id) && Hex(id') && CueFile(id, i) == CueFile(id', j)
    ensures id == id' && i == j
  {
    var f, g := CueFile(id, i), CueFile(id', j);
    assert f[..64] == id && g[..64] == id';
    assert f[65..|f| - 4] == CueName(i) && g[65..|g| - 4] == CueName(j);
    CueNamesDiffer(i, j);
  }

  lemma CueFileIsNoOther(id: string, i: nat, file: string)
    requires i < CUES && Hex(id)
    ensures CueFile(id, i) != MANIFEST && CueFile(id, i) != Part(file) && MANIFEST != Part(file)
  {
    var f, p := CueFile(id, i), Part(file);
    assert f[|f| - 1] == '3' && p[|p| - 1] == 't';
    assert MANIFEST[|MANIFEST| - 1] == 'n';
  }

  // ---- what a disk installs ----

  predicate WellFormed(g: Generation) {
    && Hex(g.id) && |g.items| == CUES
    && (forall i | 0 <= i < CUES :: 4 <= g.items[i].size <= CUE_MAX)
    && Sizes(g.items, CUES) <= STORE_LIMIT
  }

  function Sizes(items: seq<Item>, n: nat): nat
    requires n <= |items|
  {
    if n == 0 then 0 else Sizes(items, n - 1) + items[n - 1].size
  }

  function Parse(t: Tools, manifest: seq<byte>): (g: Option<Generation>)
    ensures g.Some? ==> WellFormed(g.value)
  {
    match t.parse(manifest)
    case None => None
    case Some(g) => if WellFormed(g) then Some(g) else None
  }

  predicate Good(t: Tools, item: Item, data: seq<byte>) {
    |data| == item.size && t.digest(data) == item.sha && t.plays(data, item.rate, item.channels)
  }

  /** A complete set of cues in memory. */
  datatype Loaded = Loaded(generation: Generation, cues: seq<seq<byte>>)

  ghost predicate Complete(t: Tools, disk: Disk, g: Generation)
    requires WellFormed(g)
  {
    forall i | 0 <= i < CUES :: CueFile(g.id, i) in disk && Good(t, g.items[i], disk[CueFile(g.id, i)])
  }

  function Cues(disk: Disk, id: string): seq<seq<byte>>
    requires forall i | 0 <= i < CUES :: CueFile(id, i) in disk
  {
    seq(CUES, i requires 0 <= i < CUES && CueFile(id, i) in disk => disk[CueFile(id, i)])
  }

  /** The generation the manifest names. A manifest of 8191 bytes or more is read as if it were cut short. */
  function Named(t: Tools, disk: Disk): Option<Generation> {
    if MANIFEST in disk && |disk[MANIFEST]| < MANIFEST_MAX - 1 then Parse(t, disk[MANIFEST]) else None
  }

  /** What the next start loads: everything the manifest promises or nothing. */
  ghost function Load(t: Tools, disk: Disk): Option<Loaded> {
    match Named(t, disk)
    case None => None
    case Some(g) => if Complete(t, disk, g) then Some(Loaded(g, Cues(disk, g.id))) else None
  }

  /** Every cue of a loaded set has the size and the hash the manifest promises, and decodes as it says. */
  predicate CuesAsPromised(t: Tools, l: Loaded) {
    && |l.cues| == 14 && |l.generation.items| == 14
    && forall i | 0 <= i < 14 ::
         && |l.cues[i]| == l.generation.items[i].size
         && t.digest(l.cues[i]) == l.generation.items[i].sha
         && t.plays(l.cues[i], l.generation.items[i].rate, l.generation.items[i].channels)
  }

  /** The manifest names 14 cues of 4 to 240000 bytes, 1.5 MiB at most, under a name of 64 hexadecimal digits. */
  ghost predicate ManifestAsRead(t: Tools, disk: Disk, g: Generation) {
    && MANIFEST in disk && |disk[MANIFEST]| <= 8190 && t.parse(disk[MANIFEST]) == Some(g)
    && |g.items| == 14 && (forall i | 0 <= i < 14 :: 4 <= g.items[i].size <= 240000) && Sizes(g.items, 14) <= 1572864
    && |g.id| == 64 && forall c | c in g.id :: '0' <= c <= '9' || 'a' <= c <= 'f'
  }

  /** What a load is: the set is there in full, cue by cue under its name, and nothing less is loaded. */
  lemma LoadMeans(t: Tools, disk: Disk, l: Loaded)
    ensures Load(t, disk) == Some(l) <==>
              && ManifestAsRead(t, disk, l.generation) && CuesAsPromised(t, l)
              && forall i | 0 <= i < 14 ::
                   CueFile(l.generation.id, i) in disk && disk[CueFile(l.generation.id, i)] == l.cues[i]
  {
    var g := l.generation;
    if ManifestAsRead(t, disk, g) {
      assert forall i | 0 <= i < 64 :: g.id[i] in g.id;
      if CuesAsPromised(t, l)
          && forall i | 0 <= i < 14 :: CueFile(g.id, i) in disk && disk[CueFile(g.id, i)] == l.cues[i] {
        assert Cues(disk, g.id) == l.cues;
      }
    }
  }

  /** One cue file that is missing or fails any of the three tests, and nothing is loaded. */
  lemma OneBadCue(t: Tools, disk: Disk, g: Generation, i: nat)
    requires i < 14 && Named(t, disk) == Some(g)
    requires CueFile(g.id, i) !in disk
      || |disk[CueFile(g.id, i)]| != g.items[i].size
      || t.digest(disk[CueFile(g.id, i)]) != g.items[i].sha
      || !t.plays(disk[CueFile(g.id, i)], g.items[i].rate, g.items[i].channels)
    ensures Load(t, disk) == None
  {
    if Load(t, disk).Some? {
      LoadMeans(t, disk, Load(t, disk).value);
    }
  }

  /** A start from this disk knows what is installed. */
  ghost predicate Bootable(t: Tools, disk: Disk) {
    Load(t, disk).Some? || MANIFEST !in disk
  }

  function IdOf(l: Option<Loaded>): string {
    if l.Some? then l.value.generation.id else ""
  }

  /** The disks agree on every file but those. */
  ghost predicate Agree(d: Disk, e: Disk, except: set<string>) {
    forall n: string | n !in except :: (n in d <==> n in e) && (n in d ==> d[n] == e[n])
  }

  /** The files a load looks at. */
  ghost predicate Guarded(t: Tools, disk: Disk, name: string) {
    name == MANIFEST
    || (Load(t, disk).Some? && exists i | 0 <= i < CUES :: name == CueFile(Load(t, disk).value.generation.id, i))
  }

  /** Changing files a load does not look at changes nothing. */
  lemma LoadKeeps(t: Tools, d: Disk, e: Disk, except: set<string>)
    requires Bootable(t, d) && Agree(d, e, except)
    requires forall n | n in except :: !Guarded(t, d, n)
    ensures Load(t, e) == Load(t, d) && Bootable(t, e)
  {
    assert MANIFEST !in except by {
      assert Guarded(t, d, MANIFEST);
    }
    if Load(t, d).Some? {
      var g := Named(t, d).value;
      assert forall i | 0 <= i < CUES :: Guarded(t, d, CueFile(g.id, i));
      assert Cues(e, g.id) == Cues(d, g.id);
    }
  }

  /** Temporary files never matter, whatever a cut left in them. */
  lemma PartsDoNotMatter(t: Tools, d: Disk, e: Disk, file: string)
    requires Bootable(t, d) && Agree(d, e, {Part(file)})
    ensures Load(t, e) == Load(t, d) && Bootable(t, e)
  {
    PartUnguarded(t, d, file);
    LoadKeeps(t, d, e, {Part(file)});
  }

  lemma PartUnguarded(t: Tools, d: Disk, file: string)
    ensures !Guarded(t, d, Part(file))
  {
    assert MANIFEST != Part(file) by {
      assert MANIFEST[|MANIFEST| - 1] == 'n' && Part(file)[|Part(file)| - 1] == 't';
    }
    if Load(t, d).Some? {
      var id := Load(t, d).value.generation.id;
      forall i | 0 <= i < CUES
        ensures Part(file) != CueFile(id, i)
      {
        CueFileIsNoOther(id, i, file);
      }
    }
  }

  /** The cue files of another generation do not matter either. */
  lemma CandidateUnguarded(t: Tools, d: Disk, id: string, i: nat)
    requires i < CUES && Hex(id) && IdOf(Load(t, d)) != id
    ensures !Guarded(t, d, CueFile(id, i))
  {
    CueFileIsNoOther(id, i, "");
    if Load(t, d).Some? {
      forall j | 0 <= j < CUES
        ensures CueFile(id, i) != CueFile(IdOf(Load(t, d)), j)
      {
        if CueFile(id, i) == CueFile(IdOf(Load(t, d)), j) {
          CueFilesDiffer(id, i, IdOf(Load(t, d)), j);
        }
      }
    }
  }

  // ---- cleaning ----

  /** What the cleaner deletes: a temporary cue file, or a cue file of a generation that is not active. */
  predicate Doomed(name: string, active: string) {
    && |name| >= 69 && name[64] == '_' && Hex(name[..64])
    && exists i | 0 <= i < CUES ::
         name == Part(CueFile(name[..64], i)) || (name == CueFile(name[..64], i) && name[..64] != active)
  }

  predicate DoomedCue(name: string, active: string, id: string, i: nat) {
    Hex(id) && i < CUES && (name == Part(CueFile(id, i)) || (name == CueFile(id, i) && id != active))
  }

  /** By name: every temporary cue file, and every cue file of another generation, whatever the generation. */
  lemma DoomedIff(name: string, active: string)
    ensures Doomed(name, active) <==> exists id, i :: DoomedCue(name, active, id, i)
  {
    if Doomed(name, active) {
      var i :| 0 <= i < CUES && (name == Part(CueFile(name[..64], i))
                                 || (name == CueFile(name[..64], i) && name[..64] != active));
      assert DoomedCue(name, active, name[..64], i);
    }
    if id, i :| DoomedCue(name, active, id, i) {
      assert name[..64] == id && name[64] == '_';
    }
  }

  function Cleaned(d: Disk, active: string): Disk {
    map n | n in d && !Doomed(n, active) :: d[n]
  }

  lemma CueFileDoomed(id: string, i: nat, active: string)
    requires i < CUES && Hex(id)
    ensures Doomed(CueFile(id, i), active) <==> id != active
  {
    var f := CueFile(id, i);
    assert f[..64] == id && f[64] == '_';
    if Doomed(f, active) {
      var j :| 0 <= j < CUES && (f == Part(CueFile(id, j)) || (f == CueFile(id, j) && id != active));
      CueFileIsNoOther(id, i, CueFile(id, j));
    }
  }

  /** Cleaning keeps the installed set exactly when the cleaner was told the right generation. */
  lemma CleanKeepsInstalledIff(t: Tools, d: Disk, active: string)
    requires Load(t, d).Some?
    ensures Load(t, Cleaned(d, active)) == Load(t, d) <==> active == IdOf(Load(t, d))
  {
    var e, id := Cleaned(d, active), IdOf(Load(t, d));
    assert MANIFEST in e by {
      assert |MANIFEST| < 69;
    }
    forall i | 0 <= i < CUES
      ensures CueFile(id, i) in e <==> id == active
    {
      CueFileDoomed(id, i, active);
    }
    if id == active {
      assert Cues(e, id) == Cues(d, id);
    } else {
      assert CueFile(id, 0) !in e;
    }
  }

  // ---- size ----

  ghost function Total(d: Disk): nat
    decreases |d|
  {
    if d == map[] then 0
    else
      var n :| n in d;
      Total(d - {n}) + |d[n]|
  }

  lemma {:induction false} TotalWithout(d: Disk, k: string)
    requires k in d
    ensures Total(d) == Total(d - {k}) + |d[k]|
    decreases |d|
  {
    var n :| n in d && Total(d) == Total(d - {n}) + |d[n]|;
    if n != k {
      TotalWithout(d - {n}, k);
      TotalWithout(d - {k}, n);
      assert d - {n} - {k} == d - {k} - {n};
    }
  }

  lemma TotalWith(d: Disk, k: string, v: seq<byte>)
    ensures Total(d[k := v]) == Total(d - {k}) + |v|
    ensures Total(d - {k}) <= Total(d) && (k in d ==> Total(d) == Total(d - {k}) + |d[k]|)
  {
    var e := d[k := v];
    TotalWithout(e, k);
    assert e - {k} == d - {k};
    if k in d {
      TotalWithout(d, k);
    } else {
      assert d - {k} == d;
    }
  }

  lemma {:induction false} TotalPart(d: Disk, e: Disk)
    requires forall n | n in e :: n in d && d[n] == e[n]
    ensures Total(e) <= Total(d)
    decreases |d|
  {
    if n :| n in d && n !in e {
      TotalWithout(d, n);
      TotalPart(d - {n}, e);
    } else {
      assert d == e;
    }
  }

  /** A name that counts as one of the candidate's. */
  predicate Prefixed(name: string, id: string)
    requires |id| == 64
  {
    |name| > 64 && name[..64] == id && name[64] == '_'
  }

  function Others(d: Disk, id: string): Disk
    requires |id| == 64
  {
    map n | n in d && !Prefixed(n, id) :: d[n]
  }

  function Largest(items: seq<Item>, n: nat): nat
    requires n <= |items|
  {
    if n == 0 then 0
    else if items[n - 1].size > Largest(items, n - 1) then items[n - 1].size else Largest(items, n - 1)
  }

  /** The room a candidate asks for: two manifests, all cues, and one more as its temporary file. What is
      there under its own name is not counted. */
  ghost function Demand(d: Disk, g: Generation): nat
    requires WellFormed(g)
  {
    2 * MANIFEST_MAX + Sizes(g.items, CUES) + Largest(g.items, CUES) + Total(Others(d, g.id))
  }

  function Mine(d: Disk, id: string): Disk
    requires |id| == 64
  {
    map n | n in d && Prefixed(n, id) :: d[n]
  }

  lemma TotalEmpty()
    ensures Total(map[]) == 0
  {
  }

  lemma {:induction false} TotalSplit(d: Disk, id: string)
    requires |id| == 64
    ensures Total(d) == Total(Others(d, id)) + Total(Mine(d, id))
    decreases |d|
  {
    hide Total;
    TotalEmpty();
    if n :| n in d {
      TotalWithout(d, n);
      TotalSplit(d - {n}, id);
      if Prefixed(n, id) {
        TotalWithout(Mine(d, id), n);
        assert Mine(d, id) - {n} == Mine(d - {n}, id) && Others(d, id) == Others(d - {n}, id);
      } else {
        TotalWithout(Others(d, id), n);
        assert Others(d, id) - {n} == Others(d - {n}, id) && Mine(d, id) == Mine(d - {n}, id);
      }
    } else {
      assert Others(d, id) == map[] && Mine(d, id) == map[];
    }
  }

  // ---- the most a disk holds while a candidate is staged ----

  function CueFiles(id: string, n: nat): set<string>
    requires n <= CUES
  {
    set i | 0 <= i < n :: CueFile(id, i)
  }

  function Parts(id: string, n: nat): set<string>
    requires n <= CUES
  {
    set i | 0 <= i < n :: Part(CueFile(id, i))
  }

  /** What is left of the disk when the first `n` cues have been replaced. */
  function Left(d: Disk, id: string, n: nat): Disk
    requires n <= CUES
  {
    d - CueFiles(id, n) - Parts(id, n)
  }

  /** The files under the candidate's name that lie beside its first `n` new cues while cue `n` is put in
      place, or the manifest when there is no such cue. */
  function Beside(d: Disk, id: string, n: nat): Disk
    requires |id| == 64 && n <= CUES
  {
    Mine(d, id) - CueFiles(id, n) - Parts(id, if n < CUES then n + 1 else CUES)
  }

  /** The size of the disk just before cue `n` is renamed into place. */
  ghost function Peak(d: Disk, g: Generation, n: nat): nat
    requires WellFormed(g) && n < CUES
  {
    Total(Others(d, g.id)) + Total(Beside(d, g.id, n)) + Sizes(g.items, n + 1)
  }

  /** And just before a manifest of this length is. */
  ghost function ManifestPeak(d: Disk, g: Generation, length: nat): nat
    requires WellFormed(g)
  {
    Total(Others(d, g.id) - {Part(MANIFEST)}) + Total(Beside(d, g.id, CUES)) + Sizes(g.items, CUES) + length
  }

  /** The disk and the first `n` peaks are within the limit. */
  ghost predicate FitsUpTo(d: Disk, g: Generation, n: nat, limit: nat)
    requires WellFormed(g) && n <= CUES
  {
    Total(d) <= limit && forall i | 0 <= i < n :: Peak(d, g, i) <= limit
  }

  /** The whole installation is within the limit: a condition on the sizes of the files there are. */
  ghost predicate Fits(d: Disk, g: Generation, length: nat, limit: nat)
    requires WellFormed(g)
  {
    FitsUpTo(d, g, CUES, limit) && ManifestPeak(d, g, length) <= limit
  }

  lemma OwnNames(id: string, i: nat)
    requires i < CUES && Hex(id)
    ensures Prefixed(CueFile(id, i), id) && Prefixed(Part(CueFile(id, i)), id)
    ensures !Prefixed(MANIFEST, id) && !Prefixed(Part(MANIFEST), id)
  {
    var f, p := CueFile(id, i), Part(CueFile(id, i));
    assert f[..64] == id && f[64] == '_' && p[..64] == id && p[64] == '_';
    assert |Part(MANIFEST)| < 64;
  }

  lemma PartsDiffer(a: string, b: string)
    ensures Part(a) == Part(b) ==> a == b
  {
    if Part(a) == Part(b) {
      assert |a| == |b| && Part(a)[..|a|] == a && Part(b)[..|b|] == b;
    }
  }

  lemma NextNames(id: string, n: nat)
    requires n < CUES && Hex(id)
    ensures CueFiles(id, n + 1) == CueFiles(id, n) + {CueFile(id, n)}
    ensures Parts(id, n + 1) == Parts(id, n) + {Part(CueFile(id, n))}
    ensures CueFile(id, n) !in CueFiles(id, n) + Parts(id, n) && Part(CueFile(id, n)) !in CueFiles(id, n) + Parts(id, n)
  {
    var f := CueFile(id, n);
    forall i | 0 <= i < n
      ensures CueFile(id, i) != f && Part(CueFile(id, i)) != Part(f)
      ensures Part(CueFile(id, i)) != f && CueFile(id, i) != Part(f)
    {
      if CueFile(id, i) == f {
        CueFilesDiffer(id, i, id, n);
      }
      PartsDiffer(CueFile(id, i), f);
      CueFileIsNoOther(id, n, CueFile(id, i));
      CueFileIsNoOther(id, i, f);
    }
  }

  /** The first `n` cues of the candidate have been written over what was there at the start. */
  ghost predicate Tracks(start: Disk, d: Disk, g: Generation, n: nat)
    requires WellFormed(g) && n <= CUES
  {
    Left(d, g.id, n) == Left(start, g.id, n) && Total(d) == Total(Left(start, g.id, n)) + Sizes(g.items, n)
  }

  lemma TracksStart(d: Disk, g: Generation)
    requires WellFormed(g)
    ensures Tracks(d, d, g, 0)
  {
    assert CueFiles(g.id, 0) == {} && Parts(g.id, 0) == {};
    assert Left(d, g.id, 0) == d;
  }

  /** Two disks that agree on a file differ by the same amount without it. */
  lemma SameLoss(d: Disk, e: Disk, k: string, more: nat)
    requires Total(d) == Total(e) + more && (k in d <==> k in e) && (k in d ==> d[k] == e[k])
    ensures Total(d - {k}) == Total(e - {k}) + more
  {
    hide Total;
    if k in d {
      TotalWithout(d, k);
      TotalWithout(e, k);
    } else {
      assert d - {k} == d && e - {k} == e;
    }
  }

  /** The sum of what is left and what is new, in terms of what counts as the candidate's. */
  lemma LeftSplit(d: Disk, g: Generation, n: nat, other: string)
    requires WellFormed(g) && n <= CUES && (n < CUES ==> other == Part(CueFile(g.id, n)))
    requires n == CUES ==> other == Part(MANIFEST)
    ensures Total(Left(d, g.id, n) - {other})
         == Total(if n < CUES then Others(d, g.id) else Others(d, g.id) - {other}) + Total(Beside(d, g.id, n))
  {
    hide Total;
    var e := Left(d, g.id, n) - {other};
    TotalSplit(e, g.id);
    OwnNames(g.id, if n < CUES then n else 0);
    forall i | 0 <= i < n
      ensures Prefixed(CueFile(g.id, i), g.id) && Prefixed(Part(CueFile(g.id, i)), g.id)
    {
      OwnNames(g.id, i);
    }
    if n < CUES {
      NextNames(g.id, n);
      assert Others(e, g.id) == Others(d, g.id);
    } else {
      assert Others(e, g.id) == Others(d, g.id) - {other};
    }
    assert Mine(e, g.id) == Beside(d, g.id, n);
  }

  lemma LeftNext(d: Disk, id: string, n: nat, data: seq<byte>)
    requires n < CUES && Hex(id)
    ensures var file := CueFile(id, n); var part := Part(file);
      && Left(d, id, n + 1) == Left(d, id, n) - {part} - {file}
      && Left((d - {part})[file := data], id, n + 1) == Left(d, id, n) - {part} - {file}
      && (part in d <==> part in Left(d, id, n)) && (file in d <==> file in Left(d, id, n)) && file != part
  {
    NextNames(id, n);
    CueFileIsNoOther(id, n, CueFile(id, n));
  }

  /** One more cue: the disk is at its peak just before the rename, and keeps track after it. */
  lemma TracksOneMore(start: Disk, d: Disk, g: Generation, n: nat, data: seq<byte>)
    requires WellFormed(g) && n < CUES && Tracks(start, d, g, n) && |data| == g.items[n].size
    ensures var file := CueFile(g.id, n);
      && Total(d - {Part(file)}) + |data| == Peak(start, g, n)
      && Total(d[Part(file) := data]) == Peak(start, g, n)
      && Tracks(start, (d - {Part(file)})[file := data], g, n + 1)
  {
    assert Sizes(g.items, n + 1) == Sizes(g.items, n) + g.items[n].size;
    var id, file := g.id, CueFile(g.id, n);
    var part, left, more := Part(file), Left(start, g.id, n), Sizes(g.items, n);
    LeftNext(d, id, n, data);
    LeftNext(start, id, n, data);
    LeftSplit(start, g, n, part);
    TotalWith(d, part, data);
    TotalWith(d - {part}, file, data);
    assert (part in left ==> d[part] == left[part]) && (file in left ==> d[file] == left[file]);
    hide Total, CueFile, Part, Sizes, Left, Beside, Others;
    SameLoss(d, left, part, more);
    SameLoss(d - {part}, left - {part}, file, more);
  }

  /** With all cues written, the manifest takes the disk to its last peak. */
  lemma TracksManifest(start: Disk, d: Disk, g: Generation, length: nat)
    requires WellFormed(g) && Tracks(start, d, g, CUES)
    ensures Total(d - {Part(MANIFEST)}) + length == ManifestPeak(start, g, length)
  {
    var part := Part(MANIFEST);
    assert part !in CueFiles(g.id, CUES) + Parts(g.id, CUES) by {
      forall i | 0 <= i < CUES
        ensures part != CueFile(g.id, i) && part != Part(CueFile(g.id, i))
      {
        OwnNames(g.id, i);
      }
    }
    SameLoss(d, Left(start, g.id, CUES), part, Sizes(g.items, CUES));
    LeftSplit(start, g, CUES, part);
  }

  /** While the peaks so far are within the limit, so is the disk. */
  lemma TracksWithin(start: Disk, d: Disk, g: Generation, n: nat, limit: nat)
    requires WellFormed(g) && n <= CUES && Tracks(start, d, g, n) && FitsUpTo(start, g, n, limit)
    ensures Total(d) <= limit
  {
    hide Total, Part, CueFile, Left, Others, Beside;
    TracksStart(start, g);
    if n > 0 {
      assert Peak(start, g, n - 1) <= limit;
      var file := CueFile(g.id, n - 1);
      var left := Left(start, g.id, n - 1) - {Part(file)};
      LeftSplit(start, g, n - 1, Part(file));
      LeftNext(start, g.id, n - 1, []);
      TotalWith(left, file, []);
    }
  }

  lemma FitsMore(d: Disk, g: Generation, length: nat, limit: nat, more: nat)
    requires WellFormed(g) && Fits(d, g, length, limit) && limit <= more
    ensures Fits(d, g, length, more)
  {
  }

  // ---- when the room asked for is enough ----

  /** All that bears the candidate's name are cues of its own, none larger than promised. */
  predicate OwnComplete(d: Disk, g: Generation)
    requires WellFormed(g)
  {
    forall n | n in d && Prefixed(n, g.id) :: IsOwnCue(n, d[n], g, 0)
  }

  predicate IsOwnCue(name: string, data: seq<byte>, g: Generation, from: nat)
    requires WellFormed(g)
  {
    exists i | from <= i < CUES :: name == CueFile(g.id, i) && |data| <= g.items[i].size
  }

  lemma {:induction false} OwnCuesFit(d: Disk, g: Generation, from: nat)
    requires WellFormed(g) && from <= CUES && forall n | n in d :: IsOwnCue(n, d[n], g, from)
    ensures Total(d) + Sizes(g.items, from) <= Sizes(g.items, CUES)
    decreases CUES - from
  {
    hide Total, CueFile, Part;
    TotalEmpty();
    if from < CUES {
      var file := CueFile(g.id, from);
      var rest := d - {file};
      assert Sizes(g.items, from + 1) == Sizes(g.items, from) + g.items[from].size;
      forall n | n in rest
        ensures IsOwnCue(n, rest[n], g, from + 1)
      {
        assert IsOwnCue(n, d[n], g, from);
      }
      OwnCuesFit(rest, g, from + 1);
      TotalWith(d, file, []);
      if file in d {
        assert IsOwnCue(file, d[file], g, from);
        var i :| from <= i < CUES && file == CueFile(g.id, i) && |d[file]| <= g.items[i].size;
        CueFilesDiffer(g.id, from, g.id, i);
      } else {
        assert rest == d;
      }
    } else {
      assert forall n :: n !in d;
      assert d == map[];
    }
  }

  lemma {:induction false} LargestCovers(items: seq<Item>, n: nat, i: nat)
    requires i < n <= |items|
    ensures items[i].size <= Largest(items, n)
    decreases n
  {
    if i < n - 1 {
      LargestCovers(items, n - 1, i);
    }
  }

  lemma OwnBeside(d: Disk, g: Generation, n: nat)
    requires WellFormed(g) && n <= CUES && OwnComplete(d, g)
    ensures Total(Beside(d, g.id, n)) + Sizes(g.items, n) <= Sizes(g.items, CUES)
  {
    var e := Beside(d, g.id, n);
    forall f | f in e
      ensures IsOwnCue(f, e[f], g, n)
    {
      assert IsOwnCue(f, d[f], g, 0);
      var i :| 0 <= i < CUES && f == CueFile(g.id, i) && |d[f]| <= g.items[i].size;
      assert i >= n;
    }
    OwnCuesFit(e, g, n);
  }

  /** When what bears the candidate's name are complete cues of its own, from an earlier attempt or none at
      all, the room asked for is never exceeded. */
  lemma DemandCovers(d: Disk, g: Generation, length: nat)
    requires WellFormed(g) && OwnComplete(d, g) && length <= MANIFEST_MAX
    ensures Fits(d, g, length, Demand(d, g))
  {
    hide Total;
    forall i | 0 <= i < CUES
      ensures Peak(d, g, i) <= Demand(d, g)
    {
      OwnBeside(d, g, i);
      LargestCovers(g.items, CUES, i);
    }
    OwnBeside(d, g, CUES);
    TotalWith(Others(d, g.id), Part(MANIFEST), []);
    OwnBeside(d, g, 0);
    TotalSplit(d, g.id);
    forall f | f in Mine(d, g.id)
      ensures IsOwnCue(f, Mine(d, g.id)[f], g, 0)
    {
      assert IsOwnCue(f, d[f], g, 0);
    }
    OwnCuesFit(Mine(d, g.id), g, 0);
  }

  /** None of the candidate's own cue files or temporary files is there, as after a cleaning. */
  predicate NoneOwn(d: Disk, id: string) {
    forall i | 0 <= i < CUES :: CueFile(id, i) !in d && Part(CueFile(id, i)) !in d
  }

  /** Then the limit holds throughout if and only if there is room for all cues, and for the manifest with
      them, beside everything the disk holds, strangers under the candidate's name included. */
  lemma CleanedFitsIff(d: Disk, g: Generation, length: nat, limit: nat)
    requires WellFormed(g) && NoneOwn(d, g.id)
    ensures Fits(d, g, length, limit) <==>
              && Total(d) + Sizes(g.items, CUES) <= limit
              && Total(d - {Part(MANIFEST)}) + Sizes(g.items, CUES) + length <= limit
  {
    hide Total;
    var id := g.id;
    forall n | 0 <= n <= CUES
      ensures Beside(d, id, n) == Mine(d, id)
    {
    }
    TotalSplit(d, id);
    TotalSplit(d - {Part(MANIFEST)}, id);
    OwnNames(id, 0);
    assert Others(d - {Part(MANIFEST)}, id) == Others(d, id) - {Part(MANIFEST)};
    assert Mine(d - {Part(MANIFEST)}, id) == Mine(d, id);
    forall i | 0 <= i < CUES
      ensures Peak(d, g, i) <= Peak(d, g, CUES - 1)
    {
      SizesGrow(g.items, i + 1, CUES);
    }
    assert Peak(d, g, CUES - 1) == Total(d) + Sizes(g.items, CUES);
  }

  lemma {:induction false} SizesGrow(items: seq<Item>, n: nat, m: nat)
    requires n <= m <= |items|
    ensures Sizes(items, n) <= Sizes(items, m)
    decreases m
  {
    if n < m {
      SizesGrow(items, n, m - 1);
    }
  }
}
