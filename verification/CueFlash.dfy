/** The flash directory under the cue generation store. Every primitive step that reaches the disk may fail,
    and `trace` keeps each disk a power cut could leave behind. */
module CueFlash {
  import opened Bytes
  import opened CueStore

  class Flash {
    const tools: Tools
    const limit: nat
    var files: Disk
    var faults: seq<nat>    // the outcome of each step: 0 works, k fails after k - 1 bytes
    var trace: seq<Disk>

    constructor (tools: Tools, limit: nat, files: Disk, faults: seq<nat>)
      ensures this.tools == tools && this.limit == limit && this.files == files && this.faults == faults && trace == []
    {
      this.tools, this.limit, this.files, this.faults, trace := tools, limit, files, faults, [];
    }

    method Outcome() returns (fault: nat)
      modifies this`faults
      ensures old(faults) == [] ==> faults == [] && fault == 0
    {
      fault := 0;
      if faults != [] {
        fault, faults := faults[0], faults[1..];
      }
    }

    // ---- primitive steps ----

    method Create(name: string) returns (ok: bool)
      modifies this`faults, this`files, this`trace
      ensures files == (if ok then old(files)[name := []] else old(files)) && trace == old(trace) + [files]
      ensures old(faults) == [] ==> faults == [] && ok
    {
      var fault := Outcome();
      ok := fault == 0;
      if ok {
        files := files[name := []];
      }
      trace := trace + [files];
    }

    /** Writes all of the data or only a part of it. */
    method Append(name: string, data: seq<byte>) returns (n: nat)
      requires name in files
      modifies this`faults, this`files, this`trace
      ensures n <= |data| && files == old(files)[name := old(files)[name] + data[..n]]
      ensures trace == old(trace) + [files]
      ensures old(faults) == [] ==> faults == [] && n == |data|
    {
      var fault := Outcome();
      n := if fault == 0 then |data| else Min(fault - 1, |data|);
      files := files[name := files[name] + data[..n]];
      trace := trace + [files];
    }

    method Sync() returns (ok: bool)
      modifies this`faults
      ensures old(faults) == [] ==> faults == [] && ok
    {
      var fault := Outcome();
      ok := fault == 0;
    }

    /** Atomic: the new name is there with all of it, or nothing has changed. */
    method Rename(from: string, to: string) returns (ok: bool)
      requires from in files && from != to
      modifies this`faults, this`files, this`trace
      ensures files == (if ok then (old(files) - {from})[to := old(files)[from]] else old(files))
      ensures trace == old(trace) + [files]
      ensures old(faults) == [] ==> faults == [] && ok
    {
      var fault := Outcome();
      ok := fault == 0;
      if ok {
        files := (files - {from})[to := files[from]];
      }
      trace := trace + [files];
    }

    method Unlink(name: string)
      modifies this`faults, this`files, this`trace
      ensures files == old(files) - {name} || files == old(files)
      ensures old(faults) == [] ==> faults == [] && files == old(files) - {name}
      ensures trace == old(trace) + [files]
    {
      var fault := Outcome();
      if fault == 0 {
        files := files - {name};
      }
      trace := trace + [files];
    }

    // ---- durable write ----

    static ghost function Written(d: Disk, file: string, data: seq<byte>): Disk {
      (d - {Part(file)})[file := data]
    }

    /** A disk on the way: as before but for the temporary file, or with the whole file in place. It is no
        larger than the one at the start, or than that one with the new temporary file. */
    static ghost predicate Midway(start: Disk, d: Disk, file: string, data: seq<byte>) {
      && (Agree(start, d, {Part(file)}) || d == Written(start, file, data))
      && (Total(d) <= Total(start) || Total(d) <= Total(start - {Part(file)}) + |data|)
    }

    /** The disk with the whole temporary file was one of those since `before`. */
    ghost predicate Filled(start: Disk, before: seq<Disk>, file: string, data: seq<byte>)
      reads this
    {
      before <= trace && exists k | |before| <= k < |trace| :: trace[k] == start[Part(file) := data]
    }

    /** Every disk since `before` is on the way. */
    ghost predicate Steps(start: Disk, before: seq<Disk>, file: string, data: seq<byte>)
      reads this
    {
      before <= trace && forall k | |before| <= k < |trace| :: Midway(start, trace[k], file, data)
    }

    /** Every disk since `before` is as before but for the temporary file. */
    ghost predicate Untouched(start: Disk, before: seq<Disk>, file: string)
      reads this
    {
      before <= trace && forall k | |before| <= k < |trace| :: Agree(start, trace[k], {Part(file)})
    }

    static lemma PartMidway(start: Disk, file: string, data: seq<byte>, n: nat)
      requires n <= |data|
      ensures Midway(start, start[Part(file) := data[..n]], file, data)
      ensures Midway(start, start, file, data)
      ensures Midway(start, start - {Part(file)}, file, data)
      ensures Midway(start, Written(start, file, data), file, data)
    {
      TotalWith(start, Part(file), data[..n]);
      TotalWith(start - {Part(file)}, file, data);
    }

    /** Fill and flush the temporary file. */
    method Stage(file: string, data: seq<byte>) returns (created: bool, ok: bool)
      modifies this`faults, this`files, this`trace
      ensures Steps(old(files), old(trace), file, data) && Untouched(old(files), old(trace), file)
      ensures files == old(files) || exists n | 0 <= n <= |data| :: files == old(files)[Part(file) := data[..n]]
      ensures ok ==> created && files == old(files)[Part(file) := data] && Filled(old(files), old(trace), file, data)
      ensures !created ==> files == old(files)
      ensures old(faults) == [] ==> faults == [] && ok
    {
      hide Midway;
      ghost var start := files;
      var temp := Part(file);
      PartMidway(start, file, data, 0);
      assert data[..0] == [];
      created := Create(temp);
      if !created {
        return false, false;
      }
      var n := Append(temp, data);
      PartMidway(start, file, data, n);
      assert files == start[temp := data[..n]] by {
        assert [] + data[..n] == data[..n];
      }
      var flushed := Sync();
      var synced := Sync();
      var closed := Sync();
      ok := n == |data| && flushed && synced && closed;
      assert data[..|data|] == data;
      assert trace[|trace| - 1] == files;
    }

    /** Stage the data in a temporary file, flush it, and put it in place with one rename. */
    method WriteFile(file: string, data: seq<byte>) returns (ok: bool)
      modifies this`faults, this`files, this`trace
      ensures Steps(old(files), old(trace), file, data) && Midway(old(files), files, file, data)
      ensures if ok then files == Written(old(files), file, data) else Agree(old(files), files, {Part(file)})
      ensures !ok ==> Untouched(old(files), old(trace), file)
      ensures ok ==> Filled(old(files), old(trace), file, data)
      ensures old(faults) == [] ==> faults == [] && ok
    {
      hide Midway;
      ghost var start := files;
      var temp := Part(file);
      assert |temp| > |file|;
      var created;
      created, ok := Stage(file, data);
      PartMidway(start, file, data, |data|);
      if !created {
        PartMidway(start, file, data, 0);
        return;
      }
      assert data[..|data|] == data;
      if ok {
        ghost var k :| |old(trace)| <= k < |trace| && trace[k] == start[temp := data];
        ok := Rename(temp, file);
        assert trace[k] == start[temp := data];
        assert start[temp := data] - {temp} == start - {temp};
      }
      if !ok {
        ghost var n := if temp in files && |files[temp]| <= |data| then |files[temp]| else 0;
        PartMidway(start, file, data, n);
        assert files - {temp} == start - {temp};
        Unlink(temp);
      }
    }
  }
}
