/** Structured patches over a flat file system: what a patch means, item by item. */
module Patches {
  import opened Options

  type Bytes = seq<int>
  type Digest = int

  /** A resolved path: its directory and the name in it. */
  datatype Path = Path(directory: seq<string>, name: string)

  datatype PatchFile = PatchFile(path: string, baseHash: Option<Digest>, content: Option<string>, delete: bool)

  /** The policy's path resolution (none: refused), UTF-8 and SHA-256. */
  datatype Tools = Tools(resolve: (string, bool) -> Option<Path>, encode: string -> Bytes, hash: Bytes -> Digest)

  type Files = map<Path, Bytes>

  function Temporary(p: Path): (t: Path)
    ensures t != p
  {
    var name := "." + p.name + ".mezo-tmp";
    assert |name| > |p.name|;
    Path(p.directory, name)
  }

  function Read(files: Files, p: Path): Option<Bytes> { if p in files then Some(files[p]) else None }

  // ----- Checks -----

  datatype PatchError =
    | TooLarge | Refused(item: nat) | Unreadable(item: nat) | ContextMismatch(item: nat) | BinaryContent(item: nat)
    | MissingContent(item: nat) | WriteFailed(item: nat) | RollbackFailed(item: nat)

  function ContentBytes(tools: Tools, item: PatchFile): Bytes {
    tools.encode(if item.content.Some? then item.content.value else "")
  }

  function TotalBytes(tools: Tools, items: seq<PatchFile>): nat {
    if items == [] then 0 else TotalBytes(tools, items[..|items| - 1]) + |ContentBytes(tools, items[|items| - 1])|
  }

  /** The size of a patch is the sum over its entries of the encoded content, which is empty where there is none:
      every entry counts, wherever the patch is cut, and however often its path is named. */
  lemma {:induction false} BytesAddUp(tools: Tools, xs: seq<PatchFile>, item: PatchFile, ys: seq<PatchFile>)
    ensures TotalBytes(tools, []) == 0
    ensures TotalBytes(tools, xs + [item] + ys) ==
            TotalBytes(tools, xs) + TotalBytes(tools, ys)
            + (if item.content.Some? then |tools.encode(item.content.value)| else |tools.encode("")|)
  {
    var all := xs + [item] + ys;
    if ys == [] {
      assert all == xs + [item];
      assert all[..|all| - 1] == xs;
    } else {
      var rest := ys[..|ys| - 1];
      BytesAddUp(tools, xs, item, rest);
      assert all[..|all| - 1] == xs + [item] + rest;
      assert all[|all| - 1] == ys[|ys| - 1];
    }
  }

  /** What the checking loop says of item k; unreadable tells which reads raise. */
  function Check(tools: Tools, files: Files, items: seq<PatchFile>, paths: seq<Path>, unreadable: nat -> bool,
                 k: nat): Option<PatchError>
    requires k < |items| == |paths|
  {
    var original := Read(files, paths[k]);
    if original.Some? && unreadable(k) then Some(Unreadable(k))
    else if items[k].baseHash.Some? && tools.hash(if original.Some? then original.value
        else []) != items[k].baseHash.value then
      Some(ContextMismatch(k))
    else if items[k].content.Some? && '\0' in items[k].content.value then Some(BinaryContent(k))
    else None
  }

  // ----- Meaning -----

  /** One entry's effect: delete its path, or write it through the temporary name. */
  function Put(tools: Tools, files: Files, item: PatchFile, p: Path): Files {
    if item.delete then files - {p}
    else (files - {Temporary(p)})[p := ContentBytes(tools, item)]
  }

  function ApplyAll(tools: Tools, files: Files, items: seq<PatchFile>, paths: seq<Path>): Files
    requires |items| == |paths|
  {
    if items == [] then files
    else
      var k := |items| - 1;
      Put(tools, ApplyAll(tools, files, items[..k], paths[..k]), items[k], paths[k])
  }

  /** What entry k leaves at its own path. */
  function Written(tools: Tools, item: PatchFile): Option<Bytes> {
    if item.delete then None else Some(ContentBytes(tools, item))
  }

  /** Entry k is the last one for its path. */
  predicate LastFor(paths: seq<Path>, k: nat) {
    k < |paths| && forall j :: k < j < |paths| ==> paths[j] != paths[k]
  }

  /** Some entry after k writes through a temporary name that is entry k's path. */
  predicate Clobbered(items: seq<PatchFile>, paths: seq<Path>, k: nat)
    requires |items| == |paths| && k < |paths|
  {
    exists j :: k < j < |paths| && !items[j].delete && Temporary(paths[j]) == paths[k]
  }

  /** The last entry for a path decides its content, exactly unless a later entry uses that path as its
      temporary name; then nothing is left there. */
  lemma {:induction false} LastEntryWinsIff(tools: Tools, files: Files, items: seq<PatchFile>, paths: seq<Path>, k: nat)
    requires |items| == |paths| && LastFor(paths, k)
    ensures Read(ApplyAll(tools, files, items, paths), paths[k]) ==
              if Clobbered(items, paths, k) then None else Written(tools, items[k])
    decreases |items|
  {
    var n := |items| - 1;
    if k < n {
      LastEntryWinsIff(tools, files, items[..n], paths[..n], k);
      if Clobbered(items[..n], paths[..n], k) {
        var j :| k < j < n && !items[..n][j].delete && Temporary(paths[..n][j]) == paths[..n][k];
        assert !items[j].delete && Temporary(paths[j]) == paths[k];
      }
    } else {
      assert !Clobbered(items, paths, k);
    }
  }

  /** A path that no entry names keeps its content, unless it is the temporary name of a written entry. */
  lemma {:induction false} OthersUntouchedIff(tools: Tools, files: Files, items: seq<PatchFile>, paths: seq<Path>,
                                              p: Path)
    requires |items| == |paths| && p !in paths
    ensures Read(ApplyAll(tools, files, items, paths), p) ==
              if exists j :: 0 <= j < |paths| && !items[j].delete && Temporary(paths[j]) == p then None
                  else Read(files, p)
    decreases |items|
  {
    if items == [] {
    } else {
      var n := |items| - 1;
      assert forall j :: 0 <= j < n ==> items[..n][j] == items[j] && paths[..n][j] == paths[j];
      assert paths[n] != p;
      OthersUntouchedIff(tools, files, items[..n], paths[..n], p);
    }
  }
}
