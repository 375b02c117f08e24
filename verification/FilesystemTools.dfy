/** apply_patch with a fault possible at every file operation of its write loop. */
module FilesystemTools {
  import opened Options
  import opened Patches

  /** How an operation goes: done, failed before or after its effect, or (a write) failed half-way. */
  datatype Fault = Fine | Before | Midway(left: Bytes) | After

  datatype PatchResult = Applied(changed: seq<string>, bytes: nat) | Rejected(error: PatchError)

  class FileSystem {
    var files: Files

    constructor ()
      ensures files == map[]
    {
      files := map[];
    }

    /** unlink: all or nothing, but an exception may follow it. */
    method Unlink(p: Path, fault: Fault) returns (ok: bool)
      modifies this
      ensures files == if fault.Fine? || fault.After? then old(files) - {p} else old(files)
      ensures ok == fault.Fine?
    {
      if fault.Fine? || fault.After? {
        files := files - {p};
      }
      return fault.Fine?;
    }

    method WriteBytes(p: Path, data: Bytes, fault: Fault) returns (ok: bool)
      modifies this
      ensures files ==
              if fault.Before? then old(files) else old(files)[p := if fault.Midway? then fault.left else data]
      ensures ok == fault.Fine?
    {
      match fault {
        case Before =>
        case Midway(left) => files := files[p := left];
        case _ => files := files[p := data];
      }
      return fault.Fine?;
    }

    /** os.replace: atomic. */
    method Rename(from: Path, to: Path, fault: Fault) returns (ok: bool)
      requires from in files && from != to
      modifies this
      ensures files == if fault.Fine? || fault.After? then (old(files) - {from})[to := old(files)[from]] else old(files)
      ensures ok == fault.Fine?
    {
      if fault.Fine? || fault.After? {
        var data := files[from];
        files := (files - {from})[to := data];
      }
      return fault.Fine?;
    }
  }

  /** Paths that a failing write loop may have touched. */
  predicate Touched(paths: seq<Path>, p: Path) {
    p in paths || exists k :: 0 <= k < |paths| && Temporary(paths[k]) == p
  }

  /** The two tables agree except on touched paths. */
  ghost predicate AgreeOutside(f: Files, g: Files, paths: seq<Path>) {
    forall p :: !Touched(paths, p) ==> Read(f, p) == Read(g, p)
  }

  /** What a failed patch guarantees: every path holds what it held, temporary names excepted, and even those
      when the patch names them. */
  ghost predicate RolledBack(f: Files, g: Files, paths: seq<Path>) {
    forall p :: (p in paths || forall k :: 0 <= k < |paths| ==> Temporary(paths[k]) != p) ==> Read(f, p) == Read(g, p)
  }

  /** Entry k is the first that fails its checks. */
  ghost predicate FirstFailure(tools: Tools, files: Files, items: seq<PatchFile>, paths: seq<Path>,
                               unreadable: nat -> bool, k: nat, error: PatchError)
    requires |items| == |paths| && k < |items|
  {
    && Check(tools, files, items, paths, unreadable, k) == Some(error)
    && forall j :: 0 <= j < k ==> Check(tools, files, items, paths, unreadable, j).None?
  }

  ghost predicate AllPass(tools: Tools, files: Files, items: seq<PatchFile>, paths: seq<Path>, unreadable: nat -> bool)
    requires |items| == |paths|
  {
    forall k :: 0 <= k < |items| ==> Check(tools, files, items, paths, unreadable, k).None?
  }

  /** originals holds what every path of the patch held in files. */
  ghost predicate Remembers(originals: map<Path, Option<Bytes>>, files: Files, paths: seq<Path>) {
    && (forall p :: p in originals <==> p in paths)
    && (forall p :: p in originals ==> originals[p] == Read(files, p))
  }

  /** The rollback failed at entry k: paths named before it hold what they held, and so do all paths that are
      neither named nor a temporary name. */
  ghost predicate RolledBackTo(f: Files, g: Files, paths: seq<Path>, k: nat)
    requires k <= |paths|
  {
    forall p :: p in paths[..k] || !Touched(paths, p) ==> Read(f, p) == Read(g, p)
  }

  predicate LacksContent(item: PatchFile) { !item.delete && item.content.None? }

  predicate Names(items: seq<PatchFile>, changed: seq<string>) {
    |changed| == |items| && forall k :: 0 <= k < |items| ==> changed[k] == items[k].path
  }

  /** An exception left the write loop: either an entry without content or a fault caused it and everything is
      rolled back, or the rollback met a fault of its own and got as far as it says. */
  ghost predicate WriteError(f: Files, g: Files, items: seq<PatchFile>, paths: seq<Path>, faults: nat -> Fault,
                             rollback: nat -> Fault, e: PatchError)
    requires |items| == |paths|
  {
    match e
    case MissingContent(k) => k < |items| && LacksContent(items[k]) && RolledBack(f, g, paths)
    case WriteFailed(_) => (exists n :: !faults(n).Fine?) && RolledBack(f, g, paths)
    case RollbackFailed(k) => k < |paths| && (exists n :: !rollback(n).Fine?) && RolledBackTo(f, g, paths, k)
    case _ => false
  }

  /** The write loop had begun. */
  predicate Wrote(e: PatchError) { e.WriteFailed? || e.MissingContent? || e.RollbackFailed? }

  // ----- The checks, one by one -----

  /** An existing file can be read. */
  predicate Readable(files: Files, paths: seq<Path>, unreadable: nat -> bool, k: nat)
    requires k < |paths|
  {
    paths[k] in files ==> !unreadable(k)
  }

  /** The base hash, if there is one, is that of what the path holds, an absent file counting as empty. */
  predicate ContextFits(tools: Tools, files: Files, item: PatchFile, p: Path) {
    item.baseHash == None || item.baseHash == Some(tools.hash(if p in files then files[p] else []))
  }

  predicate TextOnly(item: PatchFile) { item.content == None || '\0' !in item.content.value }

  predicate Sound(tools: Tools, files: Files, items: seq<PatchFile>, paths: seq<Path>, unreadable: nat -> bool, k: nat)
    requires k < |items| == |paths|
  {
    Readable(files, paths, unreadable, k) && ContextFits(tools, files, items[k], paths[k]) && TextOnly(items[k])
  }

  /** Entry k is the first that is not sound, and error says what is wrong with it. */
  ghost predicate FirstUnsound(tools: Tools, files: Files, items: seq<PatchFile>, paths: seq<Path>,
                               unreadable: nat -> bool, k: nat, error: PatchError)
    requires |items| == |paths| && k < |items|
  {
    && (forall j :: 0 <= j < k ==> Sound(tools, files, items, paths, unreadable, j))
    && !Sound(tools, files, items, paths, unreadable, k)
    && error == (if !Readable(files, paths, unreadable, k) then Unreadable(k)
                 else if !ContextFits(tools, files, items[k], paths[k]) then ContextMismatch(k)
                 else BinaryContent(k))
  }

  lemma CheckMeans(tools: Tools, files: Files, items: seq<PatchFile>, paths: seq<Path>, unreadable: nat -> bool, k: nat)
    requires k < |items| == |paths|
    ensures var r := Check(tools, files, items, paths, unreadable, k);
            && (r == None <==> Sound(tools, files, items, paths, unreadable, k))
            && (r == Some(Unreadable(k)) <==> !Readable(files, paths, unreadable, k))
            && (r == Some(ContextMismatch(k)) <==>
                  Readable(files, paths, unreadable, k) && !ContextFits(tools, files, items[k], paths[k]))
            && (r != None ==> r.value in {Unreadable(k), ContextMismatch(k), BinaryContent(k)})
  {
  }

  lemma ChecksMean(tools: Tools, files: Files, items: seq<PatchFile>, paths: seq<Path>, unreadable: nat -> bool)
    requires |items| == |paths|
    ensures AllPass(tools, files, items, paths, unreadable) <==>
              forall k :: 0 <= k < |items| ==> Sound(tools, files, items, paths, unreadable, k)
    ensures forall k, error :: 0 <= k < |items| ==>
              (FirstFailure(tools, files, items, paths, unreadable, k, error) <==>
               FirstUnsound(tools, files, items, paths, unreadable, k, error))
  {
    forall k | 0 <= k < |items| {
      CheckMeans(tools, files, items, paths, unreadable, k);
    }
    hide Check, Sound, Readable, ContextFits;
  }

  lemma OneFirst(tools: Tools, files: Files, items: seq<PatchFile>, paths: seq<Path>, unreadable: nat -> bool, j: nat,
                 k: nat, e: PatchError, error: PatchError)
    requires |items| == |paths| && j < |items| && k < |items|
    requires FirstUnsound(tools, files, items, paths, unreadable, j, e)
    requires FirstUnsound(tools, files, items, paths, unreadable, k, error)
    ensures j == k && e == error
  {
    hide Sound, Readable, ContextFits;
  }

  lemma FirstIsOne(tools: Tools, files: Files, items: seq<PatchFile>, paths: seq<Path>, unreadable: nat -> bool)
    requires |items| == |paths|
    ensures forall j, k, e, f ::
              && 0 <= j < |items| && 0 <= k < |items|
              && FirstUnsound(tools, files, items, paths, unreadable, j, e)
              && FirstUnsound(tools, files, items, paths, unreadable, k, f)
              ==> e == f
  {
    forall j, k, e, f | 0 <= j < |items| && 0 <= k < |items|
                        && FirstUnsound(tools, files, items, paths, unreadable, j, e)
                        && FirstUnsound(tools, files, items, paths, unreadable, k, f)
      ensures e == f
    {
      OneFirst(tools, files, items, paths, unreadable, j, k, e, f);
    }
  }

  lemma SoundMeans(tools: Tools, files: Files, items: seq<PatchFile>, paths: seq<Path>, unreadable: nat -> bool)
    requires |items| == |paths|
    requires forall k :: 0 <= k < |items| ==> Sound(tools, files, items, paths, unreadable, k)
    ensures forall k :: 0 <= k < |items| ==>
              && (items[k].baseHash == None
                  || items[k].baseHash == Some(tools.hash(if paths[k] in files then files[paths[k]] else [])))
              && (items[k].content == None || '\0' !in items[k].content.value)
              && (paths[k] in files ==> !unreadable(k))
  {
    forall k | 0 <= k < |items|
      ensures items[k].baseHash == None
              || items[k].baseHash == Some(tools.hash(if paths[k] in files then files[paths[k]] else []))
      ensures items[k].content == None || '\0' !in items[k].content.value
      ensures paths[k] in files ==> !unreadable(k)
    {
      assert Sound(tools, files, items, paths, unreadable, k);
    }
  }

  class FilesystemTool {
    const disk: FileSystem
    const tools: Tools

    constructor (disk: FileSystem, tools: Tools)
      ensures this.disk == disk && this.tools == tools
    {
      this.disk := disk;
      this.tools := tools;
    }

    method Total(items: seq<PatchFile>) returns (total: nat)
      ensures total == TotalBytes(tools, items)
    {
      total := 0;
      var k := 0;
      while k < |items|
        invariant 0 <= k <= |items| && total == TotalBytes(tools, items[..k])
      {
        assert items[..k + 1][..k] == items[..k];
        total := total + |ContentBytes(tools, items[k])|;
        k := k + 1;
      }
      assert items[..k] == items;
    }

    method ResolveAll(items: seq<PatchFile>, approved: bool) returns (paths: seq<Path>, refused: Option<nat>)
      ensures refused.Some? ==>
                && refused.value < |items| && tools.resolve(items[refused.value].path, approved).None?
                && forall j :: 0 <= j < refused.value ==> tools.resolve(items[j].path, approved).Some?
      ensures refused.None? ==>
                |paths| == |items| && forall j :: 0 <= j < |items| ==>
                    tools.resolve(items[j].path, approved) == Some(paths[j])
    {
      paths := [];
      var k := 0;
      while k < |items|
        invariant 0 <= k <= |items| && |paths| == k
        invariant forall j :: 0 <= j < k ==> tools.resolve(items[j].path, approved) == Some(paths[j])
      {
        var p := tools.resolve(items[k].path, approved);
        if p.None? {
          return paths, Some(k);
        }
        paths := paths + [p.value];
        k := k + 1;
      }
      return paths, None;
    }

    /** The checking loop remembers every original and stops at the first entry that fails. */
    method CheckAll(items: seq<PatchFile>, paths: seq<Path>, unreadable: nat -> bool)
      returns (originals: map<Path, Option<Bytes>>, error: Option<PatchError>)
      requires |items| == |paths|
      ensures error.None? ==>
                AllPass(tools, disk.files, items, paths, unreadable) && Remembers(originals, disk.files, paths)
      ensures error.Some? ==>
                exists k :: 0 <= k < |items| && FirstFailure(tools, disk.files, items, paths, unreadable, k,
                    error.value)
      ensures error.None? <==> forall k :: 0 <= k < |items| ==> Sound(tools, disk.files, items, paths, unreadable, k)
      ensures forall k, e :: 0 <= k < |items| && FirstUnsound(tools, disk.files, items, paths, unreadable, k, e) ==>
                error == Some(e)
    {
      ChecksMean(tools, disk.files, items, paths, unreadable);
      FirstIsOne(tools, disk.files, items, paths, unreadable);
      hide Sound, FirstUnsound;
      originals := map[];
      var k := 0;
      while k < |items|
        invariant 0 <= k <= |items|
        invariant forall j :: 0 <= j < k ==> Check(tools, disk.files, items, paths, unreadable, j).None?
        invariant forall p :: p in originals <==> p in paths[..k]
        invariant forall p :: p in originals ==> originals[p] == Read(disk.files, p)
      {
        var item, p := items[k], paths[k];
        var original := if p in disk.files then Some(disk.files[p]) else None;
        if original.Some? && unreadable(k) {
          assert FirstFailure(tools, disk.files, items, paths, unreadable, k, Unreadable(k));
          return originals, Some(Unreadable(k));
        }
        originals := originals[p := original];
        if item.baseHash.Some? && tools.hash(if original.Some? then original.value else []) != item.baseHash.value {
          assert FirstFailure(tools, disk.files, items, paths, unreadable, k, ContextMismatch(k));
          return originals, Some(ContextMismatch(k));
        }
        if item.content.Some? && '\0' in item.content.value {
          assert FirstFailure(tools, disk.files, items, paths, unreadable, k, BinaryContent(k));
          return originals, Some(BinaryContent(k));
        }
        k := k + 1;
      }
      return originals, None;
    }

    /** One entry of the write loop; ok is false when an exception leaves it. */
    method WriteEntry(item: PatchFile, p: Path, faults: nat -> Fault, clock: nat) returns (ok: bool, next: nat)
      modifies disk
      ensures ok ==> disk.files == Put(tools, old(disk.files), item, p) && (item.delete || item.content.Some?)
      ensures ok && item.delete ==> p !in disk.files
      ensures ok && !item.delete ==> p in disk.files && disk.files[p] == tools.encode(item.content.value)
      ensures forall q :: q != p && q != Path(p.directory, "." + p.name + ".mezo-tmp") ==>
                Read(disk.files, q) == Read(old(disk.files), q)
      ensures forall q :: q != p && q != Temporary(p) ==> Read(disk.files, q) == Read(old(disk.files), q)
      ensures !ok ==> (!item.delete && item.content.None?) || exists n :: !faults(n).Fine?
    {
      next := clock;
      if item.delete {
        ok := true;
        if p in disk.files {
          ok := disk.Unlink(p, faults(next));
          next := next + 1;
        }
        return;
      }
      if item.content.None? {
        return false, next;
      }
      // mkdir creates no file
      if faults(next) != Fine {
        return false, next + 1;
      }
      ok := disk.WriteBytes(Temporary(p), tools.encode(item.content.value), faults(next + 1));
      next := next + 2;
      if ok {
        ok := disk.Rename(Temporary(p), p, faults(next));
        next := next + 1;
      }
    }

    /** The handler of the write loop puts every original back, in the order the entries named them, and stops
        where an operation of its own fails. */
    method RollBack(paths: seq<Path>, originals: map<Path, Option<Bytes>>, faults: nat -> Fault) returns (restored: nat)
      requires forall p :: p in originals <==> p in paths
      modifies disk
      ensures restored <= |paths| && forall p :: p in paths[..restored] ==> Read(disk.files, p) == originals[p]
      ensures forall p :: p !in paths ==> Read(disk.files, p) == Read(old(disk.files), p)
      ensures restored < |paths| ==> exists n :: !faults(n).Fine?
    {
      restored := 0;
      while restored < |paths|
        invariant restored <= |paths|
        invariant forall p :: p in paths[..restored] ==> Read(disk.files, p) == originals[p]
        invariant forall p :: p !in paths[..restored] ==> Read(disk.files, p) == Read(old(disk.files), p)
      {
        var p := paths[restored];
        assert paths[..restored + 1] == paths[..restored] + [p];
        if p !in paths[..restored] {
          var ok := true;
          match originals[p] {
            case None => if p in disk.files { ok := disk.Unlink(p, faults(restored)); }
            case Some(b) => ok := disk.WriteBytes(p, b, faults(restored));
          }
          if !ok {
            return;
          }
        }
        restored := restored + 1;
      }
    }

    /** The write loop; failed names the entry that an exception left. */
    method WriteAll(items: seq<PatchFile>, paths: seq<Path>, faults: nat -> Fault)
      returns (changed: seq<string>, failed: Option<nat>)
      requires |items| == |paths|
      modifies disk
      ensures AgreeOutside(old(disk.files), disk.files, paths)
      ensures failed.None? ==> disk.files == ApplyAll(tools, old(disk.files), items, paths) && Names(items, changed)
      ensures failed.Some? ==>
                failed.value < |items| && (LacksContent(items[failed.value]) || exists n :: !faults(n).Fine?)
    {
      changed := [];
      var clock := 0;
      var k := 0;
      while k < |items|
        invariant 0 <= k <= |items|
        invariant Names(items[..k], changed)
        invariant disk.files == ApplyAll(tools, old(disk.files), items[..k], paths[..k])
        invariant AgreeOutside(old(disk.files), disk.files, paths)
      {
        ghost var at := disk.files;
        var ok;
        ok, clock := WriteEntry(items[k], paths[k], faults, clock);
        StillAgree(old(disk.files), at, disk.files, paths, k);
        if !ok {
          return changed, Some(k);
        }
        changed := changed + [items[k].path];
        assert items[..k + 1][..k] == items[..k] && paths[..k + 1][..k] == paths[..k];
        k := k + 1;
      }
      assert items[..k] == items && paths[..k] == paths;
      return changed, None;
    }

    /** The write loop and, if an exception leaves it, the rollback. */
    method WriteOrRollBack(items: seq<PatchFile>, paths: seq<Path>, originals: map<Path, Option<Bytes>>,
                           faults: nat -> Fault, rollback: nat -> Fault)
      returns (changed: seq<string>, error: Option<PatchError>)
      requires |items| == |paths| && Remembers(originals, disk.files, paths)
      modifies disk
      ensures error.None? ==> disk.files == ApplyAll(tools, old(disk.files), items, paths) && Names(items, changed)
      ensures error.Some? ==> WriteError(old(disk.files), disk.files, items, paths, faults, rollback, error.value)
    {
      var failed;
      changed, failed := WriteAll(items, paths, faults);
      if failed.None? {
        return changed, None;
      }
      ghost var left := disk.files;
      var restored := RollBack(paths, originals, rollback);
      RollBackMeans(old(disk.files), left, disk.files, paths, originals, restored);
      var k := failed.value;
      if restored < |paths| {
        return changed, Some(RollbackFailed(restored));
      }
      return changed, Some(if LacksContent(items[k]) then MissingContent(k) else WriteFailed(k));
    }

    /** Nothing is written before every check has passed; a failure afterwards rolls back; success applies the
        entries from left to right. */
    method ApplyPatch(items: seq<PatchFile>, approved: bool, unreadable: nat -> bool, faults: nat -> Fault,
                      rollback: nat -> Fault)
      returns (r: PatchResult, ghost paths: seq<Path>)
      modifies disk
      ensures r == Rejected(TooLarge) <==> TotalBytes(tools, items) > 5_000_000
      ensures r.Rejected? && !Wrote(r.error) ==> disk.files == old(disk.files)
      ensures r != Rejected(TooLarge) && !(r.Rejected? && r.error.Refused?) ==>
                |paths| == |items| && forall k :: 0 <= k < |items| ==>
                    tools.resolve(items[k].path, approved) == Some(paths[k])
      ensures r.Rejected? && r.error.Refused? ==>
                && r.error.item < |items| && tools.resolve(items[r.error.item].path, approved).None?
                && forall j :: 0 <= j < r.error.item ==> tools.resolve(items[j].path, approved).Some?
      ensures r.Rejected? && (r.error.Unreadable? || r.error.ContextMismatch? || r.error.BinaryContent?) ==>
                exists k :: 0 <= k < |items| && FirstFailure(tools, old(disk.files), items, paths, unreadable, k,
                    r.error)
      ensures r.Rejected? && Wrote(r.error) ==> AllPass(tools, old(disk.files), items, paths, unreadable)
      ensures r.Rejected? && Wrote(r.error) ==>
                WriteError(old(disk.files), disk.files, items, paths, faults, rollback, r.error)
      ensures r.Applied? ==>
                && AllPass(tools, old(disk.files), items, paths, unreadable)
                && disk.files == ApplyAll(tools, old(disk.files), items, paths)
                && Names(items, r.changed)
                && r.bytes == TotalBytes(tools, items)
      ensures r.Applied? ==>
                forall k :: 0 <= k < |items| ==>
                  && (items[k].baseHash == None
                      || items[k].baseHash ==
                         Some(tools.hash(if paths[k] in old(disk.files) then old(disk.files)[paths[k]] else [])))
                  && (items[k].content == None || '\0' !in items[k].content.value)
                  && (paths[k] in old(disk.files) ==> !unreadable(k))
      ensures TotalBytes(tools, items) <= 5_000_000 && |paths| == |items|
              && (forall k :: 0 <= k < |items| ==> tools.resolve(items[k].path, approved) != None) ==>
                && (forall k, e ::
                      0 <= k < |items| && FirstUnsound(tools, old(disk.files), items, paths, unreadable, k, e) ==>
                        r == Rejected(e) && disk.files == old(disk.files))
                && ((forall k :: 0 <= k < |items| ==> Sound(tools, old(disk.files), items, paths, unreadable, k)) ==>
                     r.Applied? || Wrote(r.error))
      ensures r.Rejected? && r.error.WriteFailed? ==> exists n :: !faults(n).Fine?
    {
      paths := [];
      var total := Total(items);
      if total > 5_000_000 {
        return Rejected(TooLarge), paths;
      }
      var resolved, refused := ResolveAll(items, approved);
      paths := resolved;
      if refused.Some? {
        return Rejected(Refused(refused.value)), paths;
      }
      var originals, error := CheckAll(items, resolved, unreadable);
      if error.Some? {
        return Rejected(error.value), paths;
      }
      SoundMeans(tools, disk.files, items, resolved, unreadable);
      var changed, failure := WriteOrRollBack(items, resolved, originals, faults, rollback);
      if failure.Some? {
        return Rejected(failure.value), paths;
      }
      return Applied(changed, total), paths;
    }
  }

  lemma RollBackMeans(f: Files, left: Files, g: Files, paths: seq<Path>, originals: map<Path, Option<Bytes>>, k: nat)
    requires Remembers(originals, f, paths) && AgreeOutside(f, left, paths) && k <= |paths|
    requires forall p :: p in paths[..k] ==> Read(g, p) == originals[p]
    requires forall p :: p !in paths ==> Read(g, p) == Read(left, p)
    ensures RolledBackTo(f, g, paths, k)
    ensures k == |paths| ==> RolledBack(f, g, paths)
  {
    assert k == |paths| ==> paths[..k] == paths;
    hide Read;
  }

  lemma StillAgree(f: Files, g: Files, h: Files, paths: seq<Path>, k: nat)
    requires k < |paths| && AgreeOutside(f, g, paths)
    requires forall q :: q != paths[k] && q != Temporary(paths[k]) ==> Read(h, q) == Read(g, q)
    ensures AgreeOutside(f, h, paths)
  {
  }
}
