// What a worker deletes from the attachment cache after it has settled an item:
// the file on record for the item if it may not be retried, and, once the item is
// sent, the file an earlier attempt had left on record. Over every run neither is
// a file that some item still needs for a retry.
module DeliveryCache {
  import opened Prelude
  import opened DeliveryLedger
  import opened DeliveryWorkers
  import opened DeliveryInvariants
  import opened DeliverySteps
  import opened DeliveryTheorems

  // ------------------------------------------------------ names of cache files

  // Every file name belongs to one item: `own` says to which.
  type Owner = string -> ItemId

  predicate Owns(own: Owner, p: Option<string>, id: ItemId) {
    Trimmed(p).Some? ==> own(Trimmed(p).value) == id
  }

  // The paths a plan brings along.
  ghost predicate PlansOwn(c: Catalogue, own: Owner) {
    forall k, n :: k in c && 0 <= n < |c[k].items| && !c[k].items[n].materialize ==>
                     Owns(own, c[k].items[n].outbound.path, ItemId(k.0, c[k].items[n].key))
  }

  // The file a worker has just fetched.
  predicate FetchOwns(c: Catalogue, s: System, step: Step, own: Owner) {
    step.Fetch? && AtItem(c, s, step.w) ==>
      Owns(own, step.done.cachePath, IdOf(c, s.workers[step.w], s.workers[step.w].pc.i))
  }

  ghost predicate NamesAreOwn(c: Catalogue, states: seq<System>, steps: seq<Step>, own: Owner)
    requires |states| == |steps| + 1
  {
    PlansOwn(c, own) && forall t :: 0 <= t < |steps| ==> FetchOwns(c, states[t], steps[t], own)
  }

  // --------------------------------------------------------------- invariant

  predicate ItemOwns(own: Owner, item: Item, id: ItemId) {
    Owns(own, item.cachePath, id) && (item.materialized.Some? ==> Owns(own, item.materialized.value.path, id))
  }

  predicate WorkerOwns(c: Catalogue, me: Worker, own: Owner) {
    me.pc.ReadyToClaim? && Known(c, me) && me.pc.i < |Plan(c, me).items| ==>
      Owns(own, me.pc.path, IdOf(c, me, me.pc.i))
  }

  ghost predicate Owned(c: Catalogue, s: System, own: Owner) {
    && (forall id :: Has(s.ledger, id) ==> ItemOwns(own, Get(s.ledger, id), id))
    && forall w :: w in s.workers ==> WorkerOwns(c, s.workers[w], own)
  }

  lemma TrimmedOwns(own: Owner, p: Option<string>, id: ItemId)
    requires Owns(own, p, id)
    ensures Owns(own, Trimmed(p), id)
  {
    hide Trim, Blank;
    if Trimmed(p).Some? {
      TrimIsStable(p.value);
    }
  }

  lemma NothingToOwn(own: Owner, id: ItemId)
    ensures Owns(own, None, id)
  {
  }

  // The item's paths are what they were, or gone.
  predicate KeepsPaths(a: Item, b: Item) {
    (b.cachePath == a.cachePath || b.cachePath.None?) && b.materialized == a.materialized
  }

  lemma KeptIsOwned(own: Owner, a: Item, b: Item, id: ItemId)
    requires ItemOwns(own, a, id) && KeepsPaths(a, b)
    ensures ItemOwns(own, b, id)
  {
    NothingToOwn(own, id);
  }

  // Worker `w` moved, and every item keeps its paths or is new and has none.
  lemma QuietOwned(c: Catalogue, s: System, t: System, w: nat, own: Owner)
    requires Owned(c, s, own) && Moves(s, t, w) && WorkerOwns(c, t.workers[w], own)
    requires forall id :: Has(t.ledger, id) ==>
                            if Has(s.ledger, id) then KeepsPaths(Get(s.ledger, id), Get(t.ledger, id))
                            else Get(t.ledger, id).cachePath.None? && Get(t.ledger, id).materialized.None?
    ensures Owned(c, t, own)
  {
    hide Owns, KeepsPaths, WorkerOwns, ItemOwns;
    forall id | Has(t.ledger, id)
      ensures ItemOwns(own, Get(t.ledger, id), id)
    {
      if Has(s.ledger, id) {
        KeptIsOwned(own, Get(s.ledger, id), Get(t.ledger, id), id);
      } else {
        BlankIsOwned(own, Get(t.ledger, id), id);
      }
    }
  }

  lemma BlankIsOwned(own: Owner, item: Item, id: ItemId)
    requires item.cachePath.None? && item.materialized.None?
    ensures ItemOwns(own, item, id)
  {
    NothingToOwn(own, id);
  }

  // Worker `w` moved and wrote one item.
  lemma OneOwned(c: Catalogue, s: System, t: System, w: nat, id: ItemId, item: Item, own: Owner)
    requires Owned(c, s, own) && Moves(s, t, w) && WorkerOwns(c, t.workers[w], own)
    requires Has(s.ledger, id) && t.ledger == Put(s.ledger, id, item) && ItemOwns(own, item, id)
    ensures Owned(c, t, own)
  {
    hide Owns, WorkerOwns, ItemOwns;
  }

  lemma PersistOwned(c: Catalogue, s: System, w: nat, now: Tick, io: Option<string>, own: Owner)
    requires Inv(c, s) && Owned(c, s, own) && w in s.workers && Known(c, s.workers[w]) && s.workers[w].pc.Idle?
    ensures Owned(c, ApplyPersist(c, s, w, now, io), own)
  {
    hide PersistPlan, RecordMatches, InOrder, ItemOk, NewRecord, Owned;
    var t := ApplyPersist(c, s, w, now, io);
    var me := s.workers[w];
    InvParts(c, s);
    PersistEffect(c, s, me, now);
    forall id | Has(t.ledger, id) && !Has(s.ledger, id)
      ensures Get(t.ledger, id).cachePath.None? && Get(t.ledger, id).materialized.None?
    {
      NewRecordHasNoPaths(Plan(c, me), t.ledger[me.delivery], me.fingerprint, now, id.item);
    }
    QuietOwned(c, s, t, w, own);
  }

  lemma NewRecordHasNoPaths(d: Delivery, r: Record, fingerprint: string, now: Tick, k: string)
    requires NewRecord(d, r, fingerprint, now) && k in r.items
    ensures r.items[k].cachePath.None? && r.items[k].materialized.None?
  {
  }

  // Where a walking worker goes with a path, the path belongs to its item.
  lemma WalkPath(c: Catalogue, s: System, w: nat, now: Tick, token: string, io: Option<string>, own: Owner)
    requires Inv(c, s) && Owned(c, s, own) && PlansOwn(c, own)
    requires w in s.workers && Known(c, s.workers[w]) && s.workers[w].pc.Next?
    requires s.workers[w].pc.i <= |Plan(c, s.workers[w]).items|
    ensures WorkerOwns(c, ApplyWalk(c, s, w, now, token, io).workers[w], own)
  {
    hide Inv, ItemOk, Trimmed, Unexpired, Owns, Put, GrantMaterial, Moves;
    var me := s.workers[w];
    var i := me.pc.i;
    if i < |Plan(c, me).items| {
      Standing(c, s, w, i);
      var id := IdOf(c, me, i);
      var p := Plan(c, me).items[i];
      assert ItemOwns(own, Get(s.ledger, id), id);
      if !p.materialize {
        assert Owns(own, p.outbound.path, id);
        TrimmedOwns(own, p.outbound.path, id);
      } else if Get(s.ledger, id).materialized.Some? {
        TrimmedOwns(own, Get(s.ledger, id).materialized.value.path, id);
      }
    }
  }

  // Claiming a materialization leaves the paths alone.
  lemma WalkOwned(c: Catalogue, s: System, w: nat, now: Tick, token: string, io: Option<string>, own: Owner)
    requires Inv(c, s) && Owned(c, s, own) && PlansOwn(c, own)
    requires w in s.workers && Known(c, s.workers[w]) && s.workers[w].pc.Next?
    requires s.workers[w].pc.i <= |Plan(c, s.workers[w]).items|
    ensures Owned(c, ApplyWalk(c, s, w, now, token, io), own)
  {
    hide Inv, Owned, Trimmed, Unexpired, WorkerOwns, GrantMaterial;
    WalkPath(c, s, w, now, token, io, own);
    QuietOwned(c, s, ApplyWalk(c, s, w, now, token, io), w, own);
  }

  lemma FetchOwned(c: Catalogue, s: System, step: Step, own: Owner)
    requires Owned(c, s, own) && step.Fetch? && Enabled(c, s, step) && FetchOwns(c, s, step, own)
    ensures Owned(c, ApplyFetch(c, s, step.w, step.now, step.done, step.io), own)
  {
    hide Owns, Trimmed, ActiveNestedClaim;
    var t := ApplyFetch(c, s, step.w, step.now, step.done, step.io);
    var me := s.workers[step.w];
    var id := IdOf(c, me, me.pc.i);
    TrimmedOwns(own, step.done.cachePath, id);
    if FinishMaterial(s.ledger, id, me.pc.token, step.done, step.now).1.Ok? && step.io.None? {
      assert ItemOwns(own, Get(s.ledger, id), id);
      OneOwned(c, s, t, step.w, id, SettleMaterial(Get(s.ledger, id), step.done, step.now), own);
    } else {
      QuietOwned(c, s, t, step.w, own);
    }
  }

  lemma ClaimOwned(c: Catalogue, s: System, w: nat, now: Tick, token: string, hasFallback: bool, io: Option<string>,
                   own: Owner)
    requires Inv(c, s) && Owned(c, s, own) && AtItem(c, s, w) && s.workers[w].pc.ReadyToClaim?
    ensures Owned(c, ApplyClaim(c, s, w, now, token, hasFallback, io), own)
  {
    hide Inv, ItemOk, Owns, ClaimItem, ClaimAnswer, AfterGrant, HoldOn;
    var t := ApplyClaim(c, s, w, now, token, hasFallback, io);
    var me := s.workers[w];
    Standing(c, s, w, me.pc.i);
    var id := IdOf(c, me, me.pc.i);
    var r := RequestOf(c, me);
    var reply := ClaimAnswer(Get(s.ledger, id), r, token, now);
    if io.None? && reply.Claimed? {
      ClaimIsPut(s.ledger, r, token, now);
      assert ItemOwns(own, Get(s.ledger, id), id) && WorkerOwns(c, me, own);
      GrantedPaths(Get(s.ledger, id), r, token, now);
      GrantIsHeld(me.pc.i, HoldOn(s.past, id, token, reply.item, hasFallback));
      OneOwned(c, s, t, w, id, reply.item, own);
    } else {
      ClaimRefused(c, s, w, now, token, hasFallback, io);
      QuietOwned(c, s, t, w, own);
    }
  }

  lemma GrantedPaths(item: Item, r: ClaimRequest, token: string, now: Tick)
    requires ClaimAnswer(item, r, token, now).Claimed?
    ensures var reply := ClaimAnswer(item, r, token, now);
            && reply.item.cachePath == r.cachePath && reply.item.materialized == item.materialized
            && reply.previousPath == item.cachePath
  {
  }

  lemma GrantIsHeld(i: nat, h: Hold)
    ensures !AfterGrant(i, h).ReadyToClaim?
  {
  }

  lemma ClaimRefused(c: Catalogue, s: System, w: nat, now: Tick, token: string, hasFallback: bool, io: Option<string>)
    requires AtItem(c, s, w) && s.workers[w].pc.ReadyToClaim?
    requires var id := IdOf(c, s.workers[w], s.workers[w].pc.i);
             && Has(s.ledger, id) && s.ledger[id.delivery].fingerprint == s.workers[w].fingerprint
             && (io.Some? || !ClaimAnswer(Get(s.ledger, id), RequestOf(c, s.workers[w]), token, now).Claimed?)
    ensures var t := ApplyClaim(c, s, w, now, token, hasFallback, io);
            t.ledger == s.ledger && !t.workers[w].pc.ReadyToClaim?
  {
  }

  lemma StoreOwned(c: Catalogue, s: System, w: nat, now: Tick, stillAllowed: Option<Failure>, io: Option<string>,
                   own: Owner)
    requires Owned(c, s, own) && AtItem(c, s, w) && s.workers[w].pc.Uploading?
    ensures Owned(c, ApplyStore(c, s, w, now, stillAllowed, io), own)
  {
    hide ActiveClaim, Owned;
    QuietOwned(c, s, ApplyStore(c, s, w, now, stillAllowed, io), w, own);
  }

  lemma SettleOwned(c: Catalogue, s: System, w: nat, now: Tick, io: Option<string>, own: Owner)
    requires Owned(c, s, own) && AtItem(c, s, w) && s.workers[w].pc.Settling?
    ensures Owned(c, ApplySettle(c, s, w, now, io), own)
  {
    hide ActiveClaim, Owned, StageOutcome;
    QuietOwned(c, s, ApplySettle(c, s, w, now, io), w, own);
  }

  lemma CloseOwned(c: Catalogue, s: System, w: nat, now: Tick, io: Option<string>, own: Owner)
    requires Owned(c, s, own) && AtItem(c, s, w) && s.workers[w].pc.Closing?
    ensures Owned(c, ApplyClose(c, s, w, now, io), own)
  {
    hide ActiveClaim, Owned, ItemOutcome;
    QuietOwned(c, s, ApplyClose(c, s, w, now, io), w, own);
  }

  lemma SweepOwned(c: Catalogue, s: System, now: Tick, ttl: Tick, own: Owner)
    requires Owned(c, s, own)
    ensures Owned(c, ApplySweep(s, now, ttl), own)
  {
    hide Owns, ItemOwns, WorkerOwns, Judge, Reconciled, ApplySweep;
    var t := ApplySweep(s, now, ttl);
    SweepShape(s, now, ttl);
    forall id | Has(t.ledger, id)
      ensures ItemOwns(own, Get(t.ledger, id), id)
    {
      SweepKeepsPaths(s, now, ttl, id);
      KeptIsOwned(own, Get(s.ledger, id), Get(t.ledger, id), id);
    }
  }

  lemma SweepKeepsPaths(s: System, now: Tick, ttl: Tick, id: ItemId)
    requires Has(ApplySweep(s, now, ttl).ledger, id)
    ensures Has(s.ledger, id) && KeepsPaths(Get(s.ledger, id), Get(ApplySweep(s, now, ttl).ledger, id))
  {
    hide Judge;
  }

  lemma SpawnOwned(c: Catalogue, s: System, w: nat, delivery: string, fingerprint: string, owner: string, own: Owner)
    requires Owned(c, s, own)
    ensures Owned(c, s.(workers := s.workers[w := Worker(delivery, fingerprint, owner, Idle)]), own)
  {
    hide Owns;
  }

  lemma EnterOwned(c: Catalogue, s: System, step: Step, own: Owner)
    requires Owned(c, s, own) && Enabled(c, s, step) && (step.Enter? || step.Call?)
    ensures Owned(c, Apply(c, s, step), own)
  {
    hide Owns, LoadPrepared;
  }

  lemma StepOwned(c: Catalogue, s: System, step: Step, own: Owner)
    requires Inv(c, s) && Owned(c, s, own) && Enabled(c, s, step)
    requires PlansOwn(c, own) && FetchOwns(c, s, step, own)
    ensures Owned(c, Apply(c, s, step), own)
  {
    hide Inv, Owned, PlansOwn, FetchOwns, ApplyPersist, ApplyWalk, ApplyFetch, ApplyClaim, ApplyStore, ApplySettle,
         ApplyClose, ApplySweep;
    match step
    case Spawn(w, delivery, fingerprint, owner) => SpawnOwned(c, s, w, delivery, fingerprint, owner, own);
    case Persist(w, now, io) => PersistOwned(c, s, w, now, io, own);
    case Walk(w, now, token, io) => WalkOwned(c, s, w, now, token, io, own);
    case Fetch(_, _, _, _) => FetchOwned(c, s, step, own);
    case Claim(w, now, token, hasFallback, io) => ClaimOwned(c, s, w, now, token, hasFallback, io, own);
    case Enter(_, _, _, _) => EnterOwned(c, s, step, own);
    case Store(w, now, stillAllowed, io) => StoreOwned(c, s, w, now, stillAllowed, io, own);
    case Call(_, _) => EnterOwned(c, s, step, own);
    case Settle(w, now, io) => SettleOwned(c, s, w, now, io, own);
    case Close(w, now, io) => CloseOwned(c, s, w, now, io, own);
    case Sweep(now, ttl) => SweepOwned(c, s, now, ttl, own);
  }

  lemma {:induction false} RunOwned(c: Catalogue, states: seq<System>, steps: seq<Step>, own: Owner, i: nat)
    requires WellFormed(c) && IsRun(c, states, steps) && NamesAreOwn(c, states, steps, own) && i < |states|
    ensures Owned(c, states[i], own)
  {
    hide Inv, Apply, Enabled, PlansOwn, FetchOwns;
    if i > 0 {
      RunOwned(c, states, steps, own, i - 1);
      RunKeeps(c, states, steps, i - 1);
      StepOwned(c, states[i - 1], steps[i - 1], own);
    }
  }

  // ---------------------------------------------------- what a worker deletes

  // The item's outcome is written, and with it its last file is given up.
  predicate Closes(c: Catalogue, s: System, step: Step) {
    && step.Close? && Enabled(c, s, step) && step.io.None?
    && var me := s.workers[step.w];
       ClaimFault(s.ledger, IdOf(c, me, me.pc.i), me.pc.hold.token, step.now).None?
  }

  function ClosingItem(c: Catalogue, s: System, step: Step): ItemId
    requires Closes(c, s, step)
  {
    IdOf(c, s.workers[step.w], s.workers[step.w].pc.i)
  }

  // The file on record for an item that may not be retried.
  predicate GivesUpFile(c: Catalogue, s: System, step: Step, path: string)
    requires Closes(c, s, step)
  {
    var pc := s.workers[step.w].pc;
    var outcome := ItemOutcome(pc.answer, pc.prepared, pc.fallbackUsed);
    && (outcome.status.Succeeded? || !outcome.retryable)
    && CacheFile(Get(s.ledger, ClosingItem(c, s, step))) == Some(path)
  }

  // The file that claim `g` found on record, if the claim itself brought another.
  predicate FoundFile(c: Catalogue, s: System, claim: Step, path: string)
    requires claim.Claim? && Enabled(c, s, claim)
  {
    var r := RequestOf(c, s.workers[claim.w]);
    var reply := ClaimItem(s.ledger, r, claim.token, claim.now).1;
    reply.Claimed? && reply.previousPath == Some(path) && r.cachePath != Some(path)
  }

  // The claim under which step `i` settles the item was granted at step `g`, and
  // found this file.
  predicate FoundBy(c: Catalogue, states: seq<System>, steps: seq<Step>, g: nat, i: nat, path: string)
    requires IsRun(c, states, steps) && g < i < |steps| && Closes(c, states[i], steps[i])
  {
    && Granted(states, steps, g, steps[i].w)
    && states[i].workers[steps[i].w].pc.hold.token == steps[g].token
    && FoundFile(c, states[g], steps[g], path)
  }

  // Step `i` settles an item and the worker then deletes `path`.
  ghost predicate Deletes(c: Catalogue, states: seq<System>, steps: seq<Step>, i: nat, path: string)
    requires IsRun(c, states, steps) && i < |steps|
  {
    && Closes(c, states[i], steps[i])
    && (GivesUpFile(c, states[i], steps[i], path)
        || (states[i].workers[steps[i].w].pc.answer.Sent?
            && exists g: nat :: g < i && FoundBy(c, states, steps, g, i, path)))
  }

  lemma ClosedIsSettled(c: Catalogue, s: System, step: Step)
    requires Closes(c, s, step)
    requires var pc := s.workers[step.w].pc;
             var outcome := ItemOutcome(pc.answer, pc.prepared, pc.fallbackUsed);
             outcome.status.Succeeded? || !outcome.retryable
    ensures var id := ClosingItem(c, s, step);
            Has(s.ledger, id) && Has(Apply(c, s, step).ledger, id) && Settled(Get(Apply(c, s, step).ledger, id))
  {
    hide ActiveClaim, RetryableMessage;
  }

  // The file a claim found was the one on record for the item it was granted on.
  lemma FoundIsOnRecord(c: Catalogue, s: System, claim: Step, path: string)
    requires Inv(c, s) && claim.Claim? && Enabled(c, s, claim) && FoundFile(c, s, claim, path)
    ensures var id := IdOf(c, s.workers[claim.w], s.workers[claim.w].pc.i);
            Has(s.ledger, id) && Get(s.ledger, id).cachePath == Some(path)
  {
    hide Inv, ItemOk, ClaimItem, ClaimAnswer;
    var me := s.workers[claim.w];
    Standing(c, s, claim.w, me.pc.i);
    var item := Get(s.ledger, IdOf(c, me, me.pc.i));
    var r := RequestOf(c, me);
    if ClaimAnswer(item, r, claim.token, claim.now).Claimed? {
      ClaimIsPut(s.ledger, r, claim.token, claim.now);
      GrantedPaths(item, r, claim.token, claim.now);
    } else {
      NoGrant(s.ledger, r, claim.token, claim.now);
    }
  }

  lemma NoGrant(l: Ledger, r: ClaimRequest, token: string, now: Tick)
    requires var id := ItemId(r.delivery, r.item);
             Has(l, id) && l[r.delivery].fingerprint == r.fingerprint
             && !ClaimAnswer(Get(l, id), r, token, now).Claimed?
    ensures !ClaimItem(l, r, token, now).1.Claimed?
  {
  }

  // The worker that settles an item still stands where it was granted the claim.
  lemma SameItem(c: Catalogue, states: seq<System>, steps: seq<Step>, g: nat, i: nat)
    requires WellFormed(c) && IsRun(c, states, steps) && g < i < |steps| && Closes(c, states[i], steps[i])
    requires Granted(states, steps, g, steps[i].w)
    requires states[i].workers[steps[i].w].pc.hold.token == steps[g].token
    ensures var me := states[g].workers[steps[g].w];
            AtItem(c, states[g], steps[g].w) && ClosingItem(c, states[i], steps[i]) == IdOf(c, me, me.pc.i)
  {
    hide Inv, Apply, ClaimFault;
    assert Enabled(c, states[g], steps[g]);
    HoldIsFixed(c, states, steps, g, i, steps[i].w);
    GrantRemembers(c, states[g], steps[g]);
    HoldStep(c, states[g], steps[g], steps[i].w);
  }

  lemma DeletedBelongs(c: Catalogue, states: seq<System>, steps: seq<Step>, own: Owner, i: nat, path: string)
    requires WellFormed(c) && IsRun(c, states, steps) && NamesAreOwn(c, states, steps, own) && i < |steps|
    requires Deletes(c, states, steps, i, path)
    ensures var id := ClosingItem(c, states[i], steps[i]);
            Owns(own, Some(path), id) && Has(states[i + 1].ledger, id) && Settled(Get(states[i + 1].ledger, id))
  {
    hide Inv, Apply, Enabled, NamesAreOwn, FoundFile, ClaimFault, Trimmed, Settled;
    var id := ClosingItem(c, states[i], steps[i]);
    ClosedIsSettled(c, states[i], steps[i]);
    RunOwned(c, states, steps, own, i);
    if GivesUpFile(c, states[i], steps[i], path) {
      assert ItemOwns(own, Get(states[i].ledger, id), id);
      TrimmedOwns(own, Get(states[i].ledger, id).cachePath, id);
    } else {
      var g: nat :| g < i && FoundBy(c, states, steps, g, i, path);
      RunKeeps(c, states, steps, g);
      RunOwned(c, states, steps, own, g);
      FoundIsOnRecord(c, states[g], steps[g], path);
      SameItem(c, states, steps, g, i);
      assert ItemOwns(own, Get(states[g].ledger, id), id);
    }
  }

  // Whoever deletes what, from then on no item that records the file may be
  // retried, so reconciliation keeps it for nobody.
  lemma DeletedFilesAreNotNeeded(c: Catalogue, states: seq<System>, steps: seq<Step>, own: Owner, i: nat,
                                 path: string, j: nat, now: Tick, ttl: Tick)
    requires WellFormed(c) && IsRun(c, states, steps) && NamesAreOwn(c, states, steps, own)
    requires i < j < |states| && Deletes(c, states, steps, i, path)
    ensures forall id :: Has(states[j].ledger, id)
                         && CacheFile(Get(states[j].ledger, id)) == Trimmed(Some(path)) != None ==>
                           id == ClosingItem(c, states[i], steps[i]) && Settled(Get(states[j].ledger, id))
    ensures !Retains(states[j].ledger, Ids(states[j].ledger), path, now, ttl)
  {
    hide Inv, Apply, Enabled, NamesAreOwn, GivesUpFile, FoundBy, ClaimFault, Trim, Blank, Settled;
    var closed := ClosingItem(c, states[i], steps[i]);
    DeletedBelongs(c, states, steps, own, i, path);
    SettledItemsStay(c, states, steps, i + 1, j, closed);
    RunOwned(c, states, steps, own, j);
    forall id | Has(states[j].ledger, id) && CacheFile(Get(states[j].ledger, id)) == Trimmed(Some(path)) != None
      ensures id == closed && Settled(Get(states[j].ledger, id))
    {
      assert ItemOwns(own, Get(states[j].ledger, id), id);
    }
    forall id | Has(states[j].ledger, id)
      ensures Judge(Get(states[j].ledger, id), now, ttl) != Retain(path)
    {
      if Judge(Get(states[j].ledger, id), now, ttl) == Retain(path) {
        RetainedFile(Get(states[j].ledger, id), path, now, ttl);
      }
    }
  }

  lemma RetainedFile(item: Item, path: string, now: Tick, ttl: Tick)
    requires Judge(item, now, ttl) == Retain(path)
    ensures CacheFile(item) == Trimmed(Some(path)) != None && !Settled(item)
  {
    TrimIsStable(item.cachePath.value);
  }
}
