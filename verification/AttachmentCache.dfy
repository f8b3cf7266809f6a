// At startup the gateway reconciles the ledger with its attachment cache: it
// removes the files the ledger gave up, then the batch directories that have
// outlived the cache, sparing any batch that holds a file still needed.
module AttachmentCache {
  import opened Prelude
  import opened DeliveryLedger
  import Store = DeliveryStore

  // ------------------------------------------------------------- data model

  // A cache file lies in a batch directory under the cache root. Two recorded
  // texts are the same path when their components agree.
  datatype Path = Path(dir: string, file: string)

  datatype Kind = Plain | Symlink | Other

  // `modified` is None when the file system cannot tell.
  datatype Batch = Batch(children: map<string, Kind>, modified: Option<int>)

  datatype Io = Done | NotFound | NotEmpty | Fault

  const CACHE_TTL := 86_400

  predicate Expired(b: Batch, now: int) {
    b.modified.Some? && now - b.modified.value > CACHE_TTL
  }

  predicate Spared(dir: string, b: Batch, retained: set<Path>) {
    exists name :: name in b.children && Path(dir, name) in retained
  }

  // What the sweep removes: an expired batch of plain files and links, none of
  // them still needed.
  predicate Sweepable(dir: string, b: Batch, retained: set<Path>, now: int) {
    Expired(b, now) && Clearable(dir, b, retained)
  }

  predicate Exists(batches: map<string, Batch>, p: Path) {
    p.dir in batches && p.file in batches[p.dir].children
  }

  // Nothing happened to this path.
  predicate Untouched(p: Path, before: map<string, Batch>, after: map<string, Batch>) {
    && (Exists(before, p) <==> Exists(after, p))
    && (Exists(before, p) ==> after[p.dir].children[p.file] == before[p.dir].children[p.file])
  }

  ghost predicate OthersStay(dir: string, before: map<string, Batch>, after: map<string, Batch>) {
    forall other :: other != dir ==>
                      (other in after <==> other in before) && (other in before ==> after[other] == before[other])
  }

  ghost predicate NothingNew(before: map<string, Batch>, after: map<string, Batch>) {
    forall p :: Exists(after, p) ==> Exists(before, p)
  }

  // A batch directory of plain files and links.
  predicate Regular(dir: string, b: Batch, stray: set<string>) {
    dir !in stray && forall name :: name in b.children ==> b.children[name] != Other
  }

  predicate NothingOdd(batches: map<string, Batch>, stray: set<string>) {
    forall dir :: dir in batches ==> Regular(dir, batches[dir], stray)
  }

  predicate Clearable(dir: string, b: Batch, retained: set<Path>) {
    !Spared(dir, b, retained) && forall name :: name in b.children ==> b.children[name] != Other
  }

  // ------------------------------------------------------------------ the cache

  // `faults(n)` says whether the n-th call to the file system fails of itself.
  class Cache {
    var batches: map<string, Batch>
    var stray: set<string>
    var calls: nat

    constructor (batches: map<string, Batch>, stray: set<string>)
      ensures this.batches == batches && this.stray == stray
    {
      this.batches, this.stray, this.calls := batches, stray, 0;
    }

    method RemoveFile(p: Path, faults: nat -> bool, at: int) returns (io: Io)
      modifies this
      ensures stray == old(stray)
      ensures io == Done ==>
                && Exists(old(batches), p)
                && var b := old(batches)[p.dir];
                   batches == old(batches)[p.dir := Batch(b.children - {p.file}, Some(at))]
      ensures io != Done ==> batches == old(batches)
      ensures io == NotFound ==> !Exists(old(batches), p)
      ensures (forall n :: !faults(n)) && !Exists(old(batches), p) ==> io == NotFound
      ensures (forall n :: !faults(n)) && Exists(old(batches), p) && old(batches)[p.dir].children[p.file] != Other ==>
                io == Done
    {
      calls := calls + 1;
      if faults(calls) {
        return Fault;
      }
      if p.dir !in batches || p.file !in batches[p.dir].children {
        return NotFound;
      }
      if batches[p.dir].children[p.file] == Other {
        return Fault;
      }
      batches := batches[p.dir := Batch(batches[p.dir].children - {p.file}, Some(at))];
      return Done;
    }

    method RemoveDir(dir: string, faults: nat -> bool) returns (io: Io)
      modifies this
      ensures stray == old(stray)
      ensures io == Done ==>
              dir in old(batches) && old(batches)[dir].children == map[] && batches == old(batches) - {dir}
      ensures io != Done ==> batches == old(batches)
      ensures (forall n :: !faults(n)) && dir !in stray ==> io != Fault
      ensures (forall n :: !faults(n)) && dir !in stray && dir in old(batches)
              && old(batches)[dir].children == map[] ==>
                io == Done
    {
      calls := calls + 1;
      if faults(calls) || dir in stray {
        return Fault;
      }
      if dir !in batches {
        return NotFound;
      }
      if batches[dir].children != map[] {
        return NotEmpty;
      }
      batches := batches - {dir};
      return Done;
    }

    method MakeDir(dir: string, faults: nat -> bool, at: int) returns (made: bool)
      modifies this
      ensures stray == old(stray)
      ensures !made ==> batches == old(batches)
      ensures made ==>
              batches == if dir in old(batches) then old(batches) else old(batches)[dir := Batch(map[], Some(at))]
      ensures (forall n :: !faults(n)) && dir !in old(stray) ==> made
    {
      calls := calls + 1;
      if faults(calls) || dir in stray {
        return false;
      }
      if dir !in batches {
        batches := batches[dir := Batch(map[], Some(at))];
      }
      return true;
    }

    // Creates the file; one that exists already is an error.
    method MakeFile(p: Path, faults: nat -> bool, at: int) returns (made: bool)
      modifies this
      ensures stray == old(stray)
      ensures !made ==> batches == old(batches)
      ensures made ==>
                && p.dir in old(batches) && !Exists(old(batches), p)
                && var b := old(batches)[p.dir];
                   batches == old(batches)[p.dir := Batch(b.children[p.file := Plain], Some(at))]
      ensures (forall n :: !faults(n)) && p.dir in old(batches) && !Exists(old(batches), p) ==> made
    {
      calls := calls + 1;
      if faults(calls) || p.dir !in batches || p.file in batches[p.dir].children {
        return false;
      }
      batches := batches[p.dir := Batch(batches[p.dir].children[p.file := Plain], Some(at))];
      return true;
    }

    // Removes the listed files, then whichever of their directories are empty.
    method RemoveReconciled(paths: seq<Option<Path>>, faults: nat -> bool, at: int) returns (ok: bool)
      modifies this
      ensures forall p :: Some(p) !in paths ==> Untouched(p, old(batches), batches)
      ensures ok ==> forall p :: Some(p) in paths ==> !Exists(batches, p)
      ensures ok ==> None !in paths
      ensures stray == old(stray)
      ensures NothingOdd(old(batches), old(stray)) ==> NothingOdd(batches, stray)
      ensures (forall n :: !faults(n)) && NothingOdd(old(batches), old(stray)) && None !in paths
              && (forall p :: Some(p) in paths ==> p.dir !in old(stray)) ==>
                ok
    {
      var directories: set<string> := {};
      for i := 0 to |paths|
        invariant forall p :: Some(p) !in paths[..i] ==> Untouched(p, old(batches), batches)
        invariant forall p :: Some(p) in paths[..i] ==> !Exists(batches, p)
        invariant None !in paths[..i] && stray == old(stray)
        invariant NothingOdd(old(batches), old(stray)) ==> NothingOdd(batches, stray)
        invariant forall dir :: dir in directories ==> exists p :: Some(p) in paths && p.dir == dir
      {
        // a path outside the cache root is refused
        if paths[i].None? {
          return false;
        }
        var path := paths[i].value;
        directories := directories + {path.dir};
        var io := RemoveFile(path, faults, at);
        if io != Done && io != NotFound {
          return false;
        }
        assert paths[..i + 1] == paths[..i] + [paths[i]];
      }
      assert paths[..|paths|] == paths;
      while directories != {}
        invariant forall p :: Some(p) !in paths ==> Untouched(p, old(batches), batches)
        invariant forall p :: Some(p) in paths ==> !Exists(batches, p)
        invariant stray == old(stray) && (NothingOdd(old(batches), old(stray)) ==> NothingOdd(batches, stray))
        invariant forall dir :: dir in directories ==> exists p :: Some(p) in paths && p.dir == dir
        decreases |directories|
      {
        var directory :| directory in directories;
        directories := directories - {directory};
        var io := RemoveDir(directory, faults);
        if io == Fault {
          return false;
        }
      }
      return true;
    }

    // Looks through a batch until it has seen it all or met something that is
    // neither a file nor a link.
    method LookThrough(dir: string, batch: Batch, retained: set<Path>, faults: nat -> bool)
      returns (ok: bool, clearable: bool)
      modifies this
      ensures batches == old(batches) && stray == old(stray)
      ensures ok ==> (clearable <==> Clearable(dir, batch, retained))
      ensures (forall n :: !faults(n)) ==> ok
    {
      var rest := batch.children.Keys;
      ghost var seen: set<string> := {};
      var canRemove, hasRetained := true, false;
      while rest != {} && canRemove
        invariant batches == old(batches) && stray == old(stray)
        invariant rest <= batch.children.Keys && (canRemove ==> seen + rest == batch.children.Keys)
        invariant canRemove ==> forall name :: name in seen ==> batch.children[name] != Other
        invariant !canRemove ==> !Clearable(dir, batch, retained)
        invariant canRemove ==> (hasRetained <==> exists name :: name in seen && Path(dir, name) in retained)
        decreases |rest|
      {
        var name :| name in rest;
        rest := rest - {name};
        calls := calls + 1;
        if faults(calls) {
          return false, false;
        }
        hasRetained := hasRetained || Path(dir, name) in retained;
        if batch.children[name] == Other {
          canRemove := false;
        } else {
          seen := seen + {name};
        }
      }
      return true, !hasRetained && canRemove;
    }

    method Clear(dir: string, at: int, faults: nat -> bool) returns (ok: bool)
      requires dir in batches
      modifies this
      ensures OthersStay(dir, old(batches), batches) && NothingNew(old(batches), batches)
      ensures ok ==> dir !in batches
      ensures dir in batches ==> dir in old(batches)
      ensures stray == old(stray)
      ensures (forall n :: !faults(n)) && Regular(dir, old(batches)[dir], old(stray)) ==> ok
    {
      var children := batches[dir].children.Keys;
      while children != {}
        invariant dir in batches && batches[dir].children.Keys == children && stray == old(stray)
        invariant forall name :: name in children ==>
                                   name in old(batches)[dir].children
                                   && batches[dir].children[name] == old(batches)[dir].children[name]
        invariant OthersStay(dir, old(batches), batches) && NothingNew(old(batches), batches)
        decreases |children|
      {
        var name :| name in children;
        var io := RemoveFile(Path(dir, name), faults, at);
        if io != Done {
          return false;
        }
        children := children - {name};
      }
      var io := RemoveDir(dir, faults);
      return io == Done;
    }

    // One batch of the sweep.
    method SweepBatch(dir: string, retained: set<Path>, now: int, faults: nat -> bool) returns (ok: bool)
      requires dir in batches
      modifies this
      ensures OthersStay(dir, old(batches), batches) && NothingNew(old(batches), batches)
      ensures !Sweepable(dir, old(batches)[dir], retained, now) ==> batches == old(batches)
      ensures ok ==> (dir in batches <==> !Sweepable(dir, old(batches)[dir], retained, now))
      ensures stray == old(stray) && ((forall n :: !faults(n)) && Regular(dir, old(batches)[dir], old(stray)) ==> ok)
    {
      calls := calls + 1;
      if faults(calls) {
        return false;
      }
      var batch := batches[dir];
      if batch.modified.None? || now - batch.modified.value <= CACHE_TTL {
        return true;
      }
      var looked, clearable := LookThrough(dir, batch, retained, faults);
      if !looked {
        return false;
      }
      if !clearable {
        return true;
      }
      ok := Clear(dir, now, faults);
    }

    // Whatever happens, only sweepable batches are touched, none of them a day old or
    // less; if all goes well, each of them is gone.
    method Sweep(retained: set<Path>, now: int, faults: nat -> bool) returns (ok: bool)
      modifies this
      ensures NothingNew(old(batches), batches)
      ensures forall dir :: dir in old(batches) && !Sweepable(dir, old(batches)[dir], retained, now) ==>
                              dir in batches && batches[dir] == old(batches)[dir]
      ensures ok ==> forall dir :: dir in old(batches) && Sweepable(dir, old(batches)[dir], retained, now) ==>
                                     dir !in batches
      ensures forall dir :: dir in old(batches)
                            && (old(batches)[dir].modified.None?
                                || now - old(batches)[dir].modified.value <= 24 * 3600) ==>
                              dir in batches && batches[dir] == old(batches)[dir]
      ensures ok ==> forall dir :: dir in old(batches) && old(batches)[dir].modified.Some?
                                   && now - old(batches)[dir].modified.value > 24 * 3600
                                   && (forall name :: name in old(batches)[dir].children ==>
                                                        Path(dir, name) !in retained
                                                        && old(batches)[dir].children[name] != Other) ==>
                                     dir !in batches
      ensures (forall n :: !faults(n)) && NothingOdd(old(batches), old(stray)) ==> ok
      ensures stray == old(stray)
    {
      calls := calls + 1;
      if faults(calls) {
        return false;
      }
      var rest := batches.Keys;
      while rest != {}
        invariant rest <= old(batches).Keys
        invariant forall dir :: dir in rest ==> dir in batches && batches[dir] == old(batches)[dir]
        invariant NothingNew(old(batches), batches) && stray == old(stray)
        invariant forall dir :: dir in old(batches) && !Sweepable(dir, old(batches)[dir], retained, now) ==>
                                  dir in batches && batches[dir] == old(batches)[dir]
        invariant forall dir :: dir in old(batches) && dir !in rest
                                && Sweepable(dir, old(batches)[dir], retained, now) ==>
                                  dir !in batches
        decreases |rest|
      {
        var dir :| dir in rest;
        rest := rest - {dir};
        ghost var before := batches;
        var swept := SweepBatch(dir, retained, now, faults);
        assert OthersStay(dir, before, batches);
        if !swept {
          return false;
        }
      }
      return true;
    }
  }

  // -------------------------------------------------------------------- startup

  function Located(paths: seq<string>, locate: string -> Option<Path>): seq<Option<Path>> {
    seq(|paths|, i requires 0 <= i < |paths| => locate(paths[i]))
  }

  // The paths recorded as texts that some item keeps, or gives up.
  ghost predicate Keeps(l: Ledger, p: Path, locate: string -> Option<Path>, now: Tick, ttl: Tick) {
    exists s :: Retains(l, Ids(l), s, now, ttl) && locate(s) == Some(p)
  }

  ghost predicate GivesUp(l: Ledger, p: Path, locate: string -> Option<Path>, now: Tick, ttl: Tick) {
    exists s :: Drops(l, Ids(l), s, now, ttl) && locate(s) == Some(p)
  }

  // The start of a gateway: reconcile the ledger, remove what it gave up, sweep.
  // A file that some item still keeps and none gives up survives every outcome;
  // one that some item gives up does not survive a start that succeeds.
  method Restart(store: Store.Store, cache: Cache, locate: string -> Option<Path>, now: Tick, ttl: Tick, clock: int,
                 faults: nat -> bool)
    returns (ok: bool)
    requires store as object != cache
    modifies store, cache
    ensures store.records == Reconcile(old(store.records), now, ttl)
    ensures forall p :: Keeps(old(store.records), p, locate, now, ttl)
                        && !GivesUp(old(store.records), p, locate, now, ttl) ==>
                          Untouched(p, old(cache.batches), cache.batches)
    ensures ok ==> forall p :: GivesUp(old(store.records), p, locate, now, ttl) ==> !Exists(cache.batches, p)
    ensures (forall n :: !faults(n)) && NothingOdd(old(cache.batches), old(cache.stray))
            && (forall s :: Drops(old(store.records), Ids(old(store.records)), s, now, ttl) ==>
                              locate(s).Some? && locate(s).value.dir !in old(cache.stray)) ==>
              ok
  {
    hide Located, Retains, Drops, Reconcile, Sweepable, Ids, Regular;
    ghost var before := store.records;
    var retained, deleted := store.ReconcileDeliveryCache(now, ttl);
    var keep, drop := Located(retained, locate), Located(deleted, locate);
    forall p
      ensures Some(p) in keep <==> Keeps(before, p, locate, now, ttl)
      ensures Some(p) in drop <==> GivesUp(before, p, locate, now, ttl)
    {
      LocatedIs(retained, locate, p);
      LocatedIs(deleted, locate, p);
    }
    LocatedAll(deleted, locate);
    ok := cache.RemoveReconciled(drop, faults, clock);
    if !ok {
      return;
    }
    ghost var removed := cache.batches;
    var spared := set p | p in keep && p.Some? :: p.value;
    ok := cache.Sweep(spared, clock, faults);
    forall p | Some(p) in keep
      ensures Untouched(p, removed, cache.batches)
    {
      SparedStays(p, removed, cache.batches, spared, clock);
    }
  }

  lemma LocatedAll(paths: seq<string>, locate: string -> Option<Path>)
    ensures forall o :: o in Located(paths, locate) <==> exists s :: s in paths && locate(s) == o
  {
    forall o
      ensures o in Located(paths, locate) <==> exists s :: s in paths && locate(s) == o
    {
      if s :| s in paths && locate(s) == o {
        var i :| 0 <= i < |paths| && paths[i] == s;
        assert Located(paths, locate)[i] == o;
      }
    }
  }

  lemma LocatedIs(paths: seq<string>, locate: string -> Option<Path>, p: Path)
    ensures Some(p) in Located(paths, locate) <==> exists s :: s in paths && locate(s) == Some(p)
  {
    if s :| s in paths && locate(s) == Some(p) {
      var i :| 0 <= i < |paths| && paths[i] == s;
      assert Located(paths, locate)[i] == Some(p);
    }
  }

  lemma SparedStays(p: Path, before: map<string, Batch>, after: map<string, Batch>, retained: set<Path>, now: int)
    requires p in retained
    requires NothingNew(before, after)
    requires forall dir :: dir in before && !Sweepable(dir, before[dir], retained, now) ==>
                             dir in after && after[dir] == before[dir]
    ensures Untouched(p, before, after)
  {
    if Exists(before, p) {
      assert Spared(p.dir, before[p.dir], retained);
    }
  }
}
