// The attachments of one message are fetched into a directory of their own, all
// or none; a guard removes what was fetched unless the ledger took it over.
module AttachmentBatch {
  import opened Prelude
  import opened AttachmentCache

  // `trusted` says whether the media type is one the gateway accepts.
  datatype Artifact = Artifact(id: string, trusted: bool)

  datatype Outcome = Outcome(
    attachments: seq<(Artifact, Path)>, files: seq<Path>, directory: Option<string>, failed: nat)

  function Destination(dir: string, names: nat -> string, i: nat): Path {
    Path(dir, names(i))
  }

  ghost predicate Distinct(names: nat -> string) {
    forall i, j :: names(i) == names(j) ==> i == j
  }

  predicate AllFetchable(artifacts: seq<Artifact>, downloads: nat -> bool) {
    forall i :: 0 <= i < |artifacts| ==> artifacts[i].trusted && downloads(i)
  }

  ghost predicate NoFaults(faults: nat -> bool) {
    forall n :: !faults(n)
  }

  // What is left in the directory is what was there.
  predicate Shrinks(dir: string, before: map<string, Batch>, after: map<string, Batch>) {
    && (dir in before <==> dir in after)
    && (dir in after ==>
          forall name :: name in after[dir].children ==>
                           name in before[dir].children && after[dir].children[name] == before[dir].children[name])
  }

  // Every file of the batch is there.
  predicate AllThere(batches: map<string, Batch>, dir: string, files: seq<Path>) {
    forall i :: 0 <= i < |files| ==>
                  files[i].dir == dir && Exists(batches, files[i]) && batches[dir].children[files[i].file] == Plain
  }

  // And nothing else is in its directory.
  predicate OnlyThese(batches: map<string, Batch>, dir: string, files: seq<Path>) {
    dir in batches ==> forall name :: name in batches[dir].children ==> Path(dir, name) in files
  }

  method RemoveAll(cache: Cache, dir: string, files: seq<Path>, faults: nat -> bool, at: int)
    requires forall i :: 0 <= i < |files| ==> files[i].dir == dir
    modifies cache
    ensures cache.stray == old(cache.stray)
    ensures OthersStay(dir, old(cache.batches), cache.batches) && Shrinks(dir, old(cache.batches), cache.batches)
    ensures forall p :: p !in files ==> Untouched(p, old(cache.batches), cache.batches)
    ensures NoFaults(faults) && AllThere(old(cache.batches), dir, files) ==>
              forall i :: 0 <= i < |files| ==> !Exists(cache.batches, files[i])
  {
    for i := 0 to |files|
      invariant cache.stray == old(cache.stray)
      invariant OthersStay(dir, old(cache.batches), cache.batches) && Shrinks(dir, old(cache.batches), cache.batches)
      invariant forall p :: p !in files ==> Untouched(p, old(cache.batches), cache.batches)
      invariant NoFaults(faults) && AllThere(old(cache.batches), dir, files) ==>
          forall j :: 0 <= j < i ==> !Exists(cache.batches, files[j])
    {
      assert files[i] in files;
      var io := cache.RemoveFile(files[i], faults, at);
    }
  }

  function ChildrenOf(batches: map<string, Batch>, dir: string): map<string, Kind> {
    if dir in batches then batches[dir].children else map[]
  }

  // Fetches one attachment; a failed transfer takes back what it had written.
  method FetchOne(cache: Cache, p: Path, downloaded: bool, faults: nat -> bool, at: int) returns (ok: bool)
    requires !Exists(cache.batches, p)
    modifies cache
    ensures cache.stray == old(cache.stray) && OthersStay(p.dir, old(cache.batches), cache.batches)
    ensures ok ==> downloaded && p.dir in cache.batches
                   && cache.batches[p.dir].children == ChildrenOf(old(cache.batches), p.dir)[p.file := Plain]
    ensures !ok ==> ChildrenOf(cache.batches, p.dir) - {p.file} == ChildrenOf(old(cache.batches), p.dir)
    ensures NoFaults(faults) && p.dir !in cache.stray ==>
              && (ok <==> downloaded)
              && (!ok ==> ChildrenOf(cache.batches, p.dir) == ChildrenOf(old(cache.batches), p.dir))
  {
    var ready := cache.MakeDir(p.dir, faults, at);
    if !ready {
      return false;
    }
    var made := cache.MakeFile(p, faults, at);
    if made && downloaded {
      return true;
    }
    var io := cache.RemoveFile(p, faults, at);
    return false;
  }

  // The directory holds files of the first `n` names only.
  ghost predicate NamesUpTo(batches: map<string, Batch>, dir: string, names: nat -> string, n: nat) {
    forall name :: name in ChildrenOf(batches, dir) ==> exists j: nat :: j < n && name == names(j)
  }

  lemma Fetched(before: map<string, Batch>, after: map<string, Batch>, p: Path, files: seq<Path>, ok: bool)
    requires AllThere(before, p.dir, files) && !Exists(before, p)
    requires ok ==> p.dir in after && after[p.dir].children == ChildrenOf(before, p.dir)[p.file := Plain]
    requires !ok ==> ChildrenOf(after, p.dir) - {p.file} == ChildrenOf(before, p.dir)
    ensures AllThere(after, p.dir, if ok then files + [p] else files)
    ensures OnlyThese(before, p.dir, files) && (ok || ChildrenOf(after, p.dir) == ChildrenOf(before, p.dir)) ==>
              OnlyThese(after, p.dir, if ok then files + [p] else files)
  {
    if !ok {
      forall i | 0 <= i < |files|
        ensures Exists(after, files[i]) && after[p.dir].children[files[i].file] == Plain
      {
        assert files[i].file in ChildrenOf(after, p.dir) - {p.file};
        assert (ChildrenOf(after, p.dir) - {p.file})[files[i].file] == Plain;
      }
    }
  }

  lemma NothingFetched(batches: map<string, Batch>, dir: string)
    requires dir !in batches
    ensures AllThere(batches, dir, []) && OnlyThese(batches, dir, [])
  {
  }

  lemma NextNameIsFree(batches: map<string, Batch>, dir: string, names: nat -> string, i: nat)
    requires NamesUpTo(batches, dir, names, i) && Distinct(names)
    ensures !Exists(batches, Path(dir, names(i)))
  {
    assert Exists(batches, Path(dir, names(i))) <==> names(i) in ChildrenOf(batches, dir);
  }

  lemma MoreNames(batches: map<string, Batch>, dir: string, names: nat -> string, i: nat)
    requires NamesUpTo(batches, dir, names, i)
    ensures NamesUpTo(batches, dir, names, i + 1)
  {
  }

  lemma NamesGrow(before: map<string, Batch>, after: map<string, Batch>, dir: string, names: nat -> string, i: nat,
                  ok: bool)
    requires NamesUpTo(before, dir, names, i)
    requires ok ==> dir in after && after[dir].children == ChildrenOf(before, dir)[names(i) := Plain]
    requires !ok ==> ChildrenOf(after, dir) - {names(i)} == ChildrenOf(before, dir)
    ensures NamesUpTo(after, dir, names, i + 1)
  {
    forall name | name in ChildrenOf(after, dir)
      ensures exists j: nat :: j < i + 1 && name == names(j)
    {
      if name != names(i) {
        assert name in ChildrenOf(after, dir) - {names(i)};
        assert name in ChildrenOf(before, dir);
      }
    }
  }

  // Fetches the attachments one by one into a fresh directory under fresh names;
  // `downloads(i)` says whether the i-th transfer succeeds.
  method Fetch(cache: Cache, artifacts: seq<Artifact>, dir: string, names: nat -> string, downloads: nat -> bool,
               faults: nat -> bool, at: int)
    returns (o: Outcome)
    requires dir !in cache.batches && dir !in cache.stray && Distinct(names)
    modifies cache
    ensures cache.stray == old(cache.stray) && OthersStay(dir, old(cache.batches), cache.batches)
    ensures AllThere(cache.batches, dir, o.files)
    ensures o.directory.None? ==> dir !in cache.batches && o.files == []
    ensures o.directory.Some? ==> o.directory == Some(dir)
    ensures |o.files| == |o.attachments|
    ensures o.failed == 0 ==> AllFetchable(artifacts, downloads) && |o.files| == |artifacts|
    ensures o.failed == 0 ==> forall i :: 0 <= i < |artifacts| ==>
                                            o.files[i] == Destination(dir, names, i)
                                            && o.attachments[i] == (artifacts[i], Destination(dir, names, i))
    ensures NoFaults(faults) ==> OnlyThese(cache.batches, dir, o.files)
    ensures NoFaults(faults) ==> (o.failed == 0 <==> AllFetchable(artifacts, downloads))
  {
    hide AllThere, OnlyThese;
    NothingFetched(cache.batches, dir);
    var directory: Option<string> := None;
    var attachments: seq<(Artifact, Path)> := [];
    var files: seq<Path> := [];
    var failed := 0;
    for i := 0 to |artifacts|
      invariant cache.stray == old(cache.stray) && OthersStay(dir, old(cache.batches), cache.batches)
      invariant AllThere(cache.batches, dir, files)
      invariant directory.None? ==> dir !in cache.batches && files == []
      invariant directory.Some? ==> directory == Some(dir)
      invariant |files| == |attachments|
      invariant failed == 0 ==> |files| == i && forall j :: 0 <= j < i ==> artifacts[j].trusted && downloads(j)
      invariant failed == 0 ==> forall j :: 0 <= j < i ==> files[j] == Destination(dir, names, j)
                                                           && attachments[j]
                                                              == (artifacts[j], Destination(dir, names, j))
      invariant NamesUpTo(cache.batches, dir, names, i)
      invariant NoFaults(faults) ==> OnlyThese(cache.batches, dir, files)
      invariant NoFaults(faults) ==> (failed == 0 <==> forall j :: 0 <= j < i ==> artifacts[j].trusted && downloads(j))
    {
      MoreNames(cache.batches, dir, names, i);
      if !artifacts[i].trusted {
        failed := failed + 1;
        continue;
      }
      directory := Some(dir);
      var destination := Destination(dir, names, i);
      NextNameIsFree(cache.batches, dir, names, i);
      ghost var before := cache.batches;
      var fetched := FetchOne(cache, destination, downloads(i), faults, at);
      NamesGrow(before, cache.batches, dir, names, i, fetched);
      Fetched(before, cache.batches, destination, files, fetched);
      if fetched {
        files := files + [destination];
        attachments := attachments + [(artifacts[i], destination)];
      } else {
        failed := failed + 1;
      }
    }
    return Outcome(attachments, files, directory, failed);
  }

  lemma NothingLeft(batches: map<string, Batch>, dir: string, files: seq<Path>)
    requires OnlyThese(batches, dir, files) && forall i :: 0 <= i < |files| ==> !Exists(batches, files[i])
    ensures ChildrenOf(batches, dir) == map[]
  {
    forall name
      ensures name !in ChildrenOf(batches, dir)
    {
      if Path(dir, name) in files {
        var i :| 0 <= i < |files| && files[i] == Path(dir, name);
        assert !Exists(batches, files[i]);
      }
    }
  }

  // The whole batch: every attachment with its own file, or none and nothing
  // left of the attempt. No other batch is touched, whatever fails.
  method Materialize(cache: Cache, artifacts: seq<Artifact>, dir: string, names: nat -> string, downloads: nat -> bool,
                     faults: nat -> bool, at: int)
    returns (o: Outcome)
    requires dir !in cache.batches && dir !in cache.stray && Distinct(names)
    modifies cache
    ensures OthersStay(dir, old(cache.batches), cache.batches)
    ensures if o.failed == 0 then
              && AllFetchable(artifacts, downloads)
              && |o.attachments| == |o.files| == |artifacts| && AllThere(cache.batches, dir, o.files)
              && forall i :: 0 <= i < |artifacts| ==>
                               o.files[i] == Destination(dir, names, i)
                               && o.attachments[i] == (artifacts[i], Destination(dir, names, i))
            else o.attachments == [] && o.files == [] && o.directory.None?
    ensures NoFaults(faults) ==> (o.failed == 0 <==> AllFetchable(artifacts, downloads))
    ensures NoFaults(faults) && o.files == [] ==> cache.batches == old(cache.batches)
  {
    o := Fetch(cache, artifacts, dir, names, downloads, faults, at);
    ghost var fetched := o.files;
    if o.failed > 0 {
      RemoveAll(cache, dir, o.files, faults, at);
      o := o.(files := [], attachments := []);
    }
    if o.files == [] && o.directory.Some? {
      o := o.(directory := None);
      if NoFaults(faults) {
        NothingLeft(cache.batches, dir, fetched);
      }
      var io := cache.RemoveDir(dir, faults);
    }
  }

  // ---------------------------------------------------------------- the guard

  // Holds the files of a batch until the ledger has taken them over.
  class Guard {
    const cache: Cache
    var files: seq<Path>
    var directory: Option<string>

    constructor (cache: Cache, files: seq<Path>, directory: Option<string>)
      ensures this.cache == cache && this.files == files && this.directory == directory
    {
      this.cache, this.files, this.directory := cache, files, directory;
    }

    method DisarmPath(p: Path)
      modifies this
      ensures forall q :: q in files <==> q in old(files) && q != p
      ensures directory == if files == [] then None else old(directory)
    {
      var kept: seq<Path> := [];
      for i := 0 to |files|
        invariant files == old(files) && directory == old(directory)
        invariant forall q :: q in kept <==> q in files[..i] && q != p
      {
        assert files[..i + 1] == files[..i] + [files[i]];
        if files[i] != p {
          kept := kept + [files[i]];
        }
      }
      assert files[..|files|] == files;
      files := kept;
      if files == [] {
        directory := None;
      }
    }

    // A file the ledger took over is untouched when the guard goes; without
    // faults every other file of the batch is gone.
    method Drop(faults: nat -> bool, at: int)
      modifies this, cache
      ensures forall p :: p !in old(files) ==> Untouched(p, old(cache.batches), cache.batches)
      ensures NoFaults(faults) && (forall p :: p in old(files) && Exists(old(cache.batches), p) ==>
                                                 old(cache.batches)[p.dir].children[p.file] != Other) ==>
                forall p :: p in old(files) ==> !Exists(cache.batches, p)
      ensures files == [] && directory == None
    {
      var doomed := files;
      files := [];
      for i := 0 to |doomed|
        invariant files == [] && directory == old(directory)
        invariant forall p :: p !in doomed ==> Untouched(p, old(cache.batches), cache.batches)
        invariant forall p :: Exists(cache.batches, p) ==>
                                Exists(old(cache.batches), p)
                                && cache.batches[p.dir].children[p.file] == old(cache.batches)[p.dir].children[p.file]
        invariant NoFaults(faults) && (forall p :: p in doomed && Exists(old(cache.batches), p) ==>
                                                     old(cache.batches)[p.dir].children[p.file] != Other) ==>
            forall j :: 0 <= j < i ==> !Exists(cache.batches, doomed[j])
      {
        assert doomed[i] in doomed;
        var io := cache.RemoveFile(doomed[i], faults, at);
      }
      if directory.Some? {
        var io := cache.RemoveDir(directory.value, faults);
        directory := None;
      }
    }
  }
}
