// What the delivery processes guarantee over every run, from the empty ledger.
module DeliveryTheorems {
  import opened Prelude
  import opened DeliveryLedger
  import opened DeliveryWorkers
  import opened DeliveryInvariants
  import opened DeliverySteps

  function At(states: seq<System>, i: nat, id: ItemId): Item
    requires i < |states| && Has(states[i].ledger, id)
  {
    Get(states[i].ledger, id)
  }

  lemma OneStep(c: Catalogue, states: seq<System>, steps: seq<Step>, i: nat)
    requires WellFormed(c) && IsRun(c, states, steps) && i < |steps|
    ensures Inv(c, states[i]) && Inv(c, states[i + 1])
    ensures Rely(states[i], states[i + 1], ActorOf(states[i], steps[i]))
  {
    RunKeeps(c, states, steps, i);
    StepKeeps(c, states[i], steps[i]);
  }

  lemma InvParts(c: Catalogue, s: System)
    requires Inv(c, s)
    ensures WellFormed(c) && RecordsOk(c, s.ledger) && InOrder(c, s)
    ensures forall id :: Has(s.ledger, id) ==>
                           ItemOk(Get(s.ledger, id), id, LeaseOf(c, s.ledger, id.delivery), s.clock, s.used, s.past)
    ensures forall w :: w in s.workers ==> Known(c, s.workers[w]) && PcOk(c, s, s.workers[w])
  {
  }

  // ---------------------------------------------------------------- fencing

  // The stage and provider fields of an item change only in a step by the
  // holder of the token on record, while its lease runs.
  lemma FencedWrites(c: Catalogue, states: seq<System>, steps: seq<Step>, i: nat, id: ItemId)
    requires WellFormed(c) && IsRun(c, states, steps) && i < |steps|
    requires Has(states[i].ledger, id)
    requires Has(states[i + 1].ledger, id) ==> SendFields(At(states, i + 1, id)) != SendFields(At(states, i, id))
    ensures Has(states[i + 1].ledger, id)
    ensures steps[i].Store? || steps[i].Settle? || steps[i].Close?
    ensures var me := states[i].workers[steps[i].w];
            && Holding(me.pc)
            && id == IdOf(c, me, me.pc.i)
            && At(states, i, id).claimToken == Some(me.pc.hold.token)
            && ActiveClaim(At(states, i, id), me.pc.hold.token, steps[i].now)
  {
    hide Inv, Apply;
    RunKeeps(c, states, steps, i);
    StepIsFenced(c, states[i], steps[i], id);
  }

  // The step leaves the item's send fields alone, or is by the active holder.
  predicate StepFenced(c: Catalogue, s: System, step: Step, after: Ledger, id: ItemId)
    requires Has(s.ledger, id)
  {
    || Undisturbed(s, after, id)
    || (&& (step.Store? || step.Settle? || step.Close?)
        && AtItem(c, s, step.w) && Holding(s.workers[step.w].pc)
        && Fenced(c, s, step.w, step.now, after, id))
  }

  lemma StepIsFenced(c: Catalogue, s: System, step: Step, id: ItemId)
    requires Inv(c, s) && Enabled(c, s, step) && Has(s.ledger, id)
    ensures StepFenced(c, s, step, Apply(c, s, step).ledger, id)
  {
    hide Inv, Fenced, ApplyPersist, ApplyWalk, ApplyFetch, ApplyClaim, ApplyStore, ApplySettle, ApplyClose, ApplySweep;
    match step
    case Spawn(_, _, _, _) =>
    case Persist(w, now, io) =>
      InvParts(c, s);
      PersistLeavesAlone(c, s, w, now, io, id);
    case Walk(w, now, token, io) => WalkLeavesAlone(c, s, w, now, token, io, id);
    case Fetch(w, now, done, io) => FetchLeavesAlone(c, s, w, now, done, io, id);
    case Claim(w, now, token, hasFallback, io) => ClaimLeavesAlone(c, s, w, now, token, hasFallback, io, id);
    case Enter(_, _, _, _) =>
    case Store(w, now, stillAllowed, io) => StoreIsFenced(c, s, w, now, stillAllowed, io, id);
    case Call(_, _) =>
    case Settle(w, now, io) => SettleIsFenced(c, s, w, now, io, id);
    case Close(w, now, io) => CloseIsFenced(c, s, w, now, io, id);
    case Sweep(now, ttl) => SweepLeavesAlone(s, now, ttl, id);
  }

  lemma ReconciledLeavesAlone(item: Item, now: Tick, ttl: Tick, used: set<string>)
    ensures var b := Reconciled(item, now, ttl);
            SendFields(b) == SendFields(item) && LeaseNotRenewed(item, b, used)
  {
    match Judge(item, now, ttl)
    case Skip =>
    case Retain(_) =>
    case Drop(_, expired) =>
      if expired {
        assert Reconciled(item, now, ttl).status.Expired?;
      }
  }

  lemma SweepLeavesAlone(s: System, now: Tick, ttl: Tick, id: ItemId)
    requires Has(s.ledger, id)
    ensures Undisturbed(s, ApplySweep(s, now, ttl).ledger, id)
  {
    hide Judge, Reconciled;
    assert Get(ApplySweep(s, now, ttl).ledger, id) == Reconciled(Get(s.ledger, id), now, ttl);
    ReconciledLeavesAlone(Get(s.ledger, id), now, ttl, s.used);
  }

  // While an item keeps its token, it is not turned back to sending and the
  // end of its lease is not moved.
  predicate LeaseNotRenewed(a: Item, b: Item, used: set<string>) {
    || (b.claimToken.Some? && b.claimToken.value !in used)
    || (&& b.claimToken == a.claimToken
        && (b.status.Sending? ==> a.status.Sending? && b.claimExpiresAt == a.claimExpiresAt))
  }

  predicate Undisturbed(s: System, after: Ledger, id: ItemId)
    requires Has(s.ledger, id)
  {
    && Has(after, id)
    && SendFields(Get(after, id)) == SendFields(Get(s.ledger, id))
    && LeaseNotRenewed(Get(s.ledger, id), Get(after, id), s.used)
  }

  lemma PersistLeavesAlone(c: Catalogue, s: System, w: nat, now: Tick, io: Option<string>, id: ItemId)
    requires WellFormed(c) && RecordsOk(c, s.ledger) && w in s.workers && Known(c, s.workers[w]) && Has(s.ledger, id)
    ensures Undisturbed(s, ApplyPersist(c, s, w, now, io).ledger, id)
  {
    hide PersistPlan, NewRecord, RecordMatches, SendFields;
    PersistEffect(c, s, s.workers[w], now);
  }

  lemma WalkLeavesAlone(c: Catalogue, s: System, w: nat, now: Tick, token: string, io: Option<string>, id: ItemId)
    requires w in s.workers && Known(c, s.workers[w]) && s.workers[w].pc.Next?
    requires s.workers[w].pc.i <= |Plan(c, s.workers[w]).items| && Has(s.ledger, id) && Fresh(s, token)
    ensures Undisturbed(s, ApplyWalk(c, s, w, now, token, io).ledger, id)
  {
    hide ClaimMaterial, LeaseNotRenewed, SendFields;
    var me := s.workers[w];
    var i := me.pc.i;
    LeaseStays(Get(s.ledger, id), s.used);
    if i < |Plan(c, me).items| {
      MaterialClaimWrites(s.ledger, IdOf(c, me, i), me.owner, Plan(c, me).leaseSeconds, token, now, id, s.used);
    }
  }

  // Claiming a materialization writes no send field and renews no lease.
  lemma MaterialClaimWrites(l: Ledger, at: ItemId, owner: string, leaseSeconds: nat, token: string, now: Tick,
                            id: ItemId, used: set<string>)
    requires Has(l, id)
    ensures var after := ClaimMaterial(l, at, owner, leaseSeconds, token, now).0;
            Has(after, id) && SendFields(Get(after, id)) == SendFields(Get(l, id))
            && LeaseNotRenewed(Get(l, id), Get(after, id), used)
  {
    hide Unexpired;
  }

  lemma FetchLeavesAlone(c: Catalogue, s: System, w: nat, now: Tick, done: MaterialCompletion,
                               io: Option<string>, id: ItemId)
    requires AtItem(c, s, w) && s.workers[w].pc.Fetching? && Has(s.ledger, id)
    ensures Undisturbed(s, ApplyFetch(c, s, w, now, done, io).ledger, id)
  {
  }

  lemma ClaimLeavesAlone(c: Catalogue, s: System, w: nat, now: Tick, token: string, hasFallback: bool,
                               io: Option<string>, id: ItemId)
    requires AtItem(c, s, w) && s.workers[w].pc.ReadyToClaim? && Has(s.ledger, id) && Fresh(s, token)
    ensures Undisturbed(s, ApplyClaim(c, s, w, now, token, hasFallback, io).ledger, id)
  {
    hide ClaimItem, RequestOf, AfterGrant, HoldOn, LeaseNotRenewed;
    ClaimWritesOneItem(s.ledger, RequestOf(c, s.workers[w]), token, now, id, s.used);
    LeaseStays(Get(s.ledger, id), s.used);
  }

  lemma LeaseStays(item: Item, used: set<string>)
    ensures LeaseNotRenewed(item, item, used)
  {
  }

  // A claim writes no stage or provider field, and renews a lease only under a
  // new token.
  lemma ClaimWritesOneItem(l: Ledger, r: ClaimRequest, token: string, now: Tick, id: ItemId, used: set<string>)
    requires Has(l, id) && token !in used
    ensures var after := ClaimItem(l, r, token, now).0;
            Has(after, id) && SendFields(Get(after, id)) == SendFields(Get(l, id))
            && LeaseNotRenewed(Get(l, id), Get(after, id), used)
  {
    hide Unexpired;
    var (after, reply) := ClaimItem(l, r, token, now);
    if reply.Claimed? && id != ItemId(r.delivery, r.item) {
      assert Get(after, id) == Get(l, id);
    }
  }

  // A write commits only on the writer's own item and under its active claim.
  predicate Fenced(c: Catalogue, s: System, w: nat, now: Tick, after: Ledger, id: ItemId)
    requires AtItem(c, s, w) && Holding(s.workers[w].pc) && Has(s.ledger, id)
  {
    Undisturbed(s, after, id)
    || (Has(after, id) && id == IdOf(c, s.workers[w], s.workers[w].pc.i)
        && ActiveClaim(Get(s.ledger, id), s.workers[w].pc.hold.token, now)
        && LeaseNotRenewed(Get(s.ledger, id), Get(after, id), s.used))
  }

  lemma StoreIsFenced(c: Catalogue, s: System, w: nat, now: Tick, stillAllowed: Option<Failure>, io: Option<string>,
                      id: ItemId)
    requires AtItem(c, s, w) && s.workers[w].pc.Uploading? && Has(s.ledger, id)
    ensures Fenced(c, s, w, now, ApplyStore(c, s, w, now, stillAllowed, io).ledger, id)
  {
  }

  lemma SettleIsFenced(c: Catalogue, s: System, w: nat, now: Tick, io: Option<string>, id: ItemId)
    requires AtItem(c, s, w) && s.workers[w].pc.Settling? && Has(s.ledger, id)
    ensures Fenced(c, s, w, now, ApplySettle(c, s, w, now, io).ledger, id)
  {
  }

  lemma CloseIsFenced(c: Catalogue, s: System, w: nat, now: Tick, io: Option<string>, id: ItemId)
    requires AtItem(c, s, w) && s.workers[w].pc.Closing? && Has(s.ledger, id)
    ensures Fenced(c, s, w, now, ApplyClose(c, s, w, now, io).ledger, id)
  {
  }

  // A token that has been granted and no longer fences the item: superseded,
  // finished, or past its lease.
  ghost predicate Dead(s: System, id: ItemId, token: string) {
    && token in s.used
    && (Has(s.ledger, id) ==> !ActiveClaim(Get(s.ledger, id), token, s.clock))
  }

  // Once dead, a token never becomes valid again, whatever the clock reads.
  lemma {:induction false} DeadTokensStayDead(c: Catalogue, states: seq<System>, steps: seq<Step>, i: nat, j: nat,
                                              id: ItemId, token: string)
    requires WellFormed(c) && IsRun(c, states, steps) && i <= j < |states|
    requires Dead(states[i], id, token) && Has(states[i].ledger, id)
    ensures Dead(states[j], id, token) && Has(states[j].ledger, id)
    ensures forall now :: states[j].clock <= now ==> !ActiveClaim(At(states, j, id), token, now)
    decreases j
  {
    hide Inv, Apply;
    if i < j {
      DeadTokensStayDead(c, states, steps, i, j - 1, id, token);
      RunKeeps(c, states, steps, j - 1);
      DeadForOneStep(c, states[j - 1], steps[j - 1], id, token);
    }
  }

  lemma DeadForOneStep(c: Catalogue, s: System, step: Step, id: ItemId, token: string)
    requires Inv(c, s) && Enabled(c, s, step)
    requires Dead(s, id, token) && Has(s.ledger, id)
    ensures var t := Apply(c, s, step);
            s.clock <= t.clock && Has(t.ledger, id) && Dead(t, id, token)
  {
    hide Inv, Apply, RecordsOk, InOrder, PcOk;
    var t := Apply(c, s, step);
    StepKeeps(c, s, step);
    RelyAt(s, t, ActorOf(s, step), id);
    StepIsFenced(c, s, step, id);
    ClockMoves(c, s, step);
    InvParts(c, s);
  }

  lemma RelyAt(s: System, t: System, actor: Option<string>, id: ItemId)
    requires Rely(s, t, actor) && Has(s.ledger, id)
    ensures s.used <= t.used && Has(t.ledger, id) && ItemStep(s, t, id, actor)
  {
  }

  lemma ClockMoves(c: Catalogue, s: System, step: Step)
    requires Enabled(c, s, step)
    ensures s.clock <= Apply(c, s, step).clock
  {
    hide ApplyPersist, ApplyWalk, ApplyFetch, ApplyClaim, ApplyEnter, ApplyStore, ApplySettle, ApplyClose, Reconcile,
         Judge;
  }

  // A holder whose token is still on record knows the stage and provider
  // fields exactly: its snapshot with its own writes is what the ledger says.
  lemma HolderSeesTheLedger(c: Catalogue, states: seq<System>, steps: seq<Step>, i: nat, w: nat)
    requires WellFormed(c) && IsRun(c, states, steps) && i < |states|
    requires w in states[i].workers && Holding(states[i].workers[w].pc)
    ensures var me := states[i].workers[w];
            && Known(c, me) && me.pc.i < |Plan(c, me).items| && Has(states[i].ledger, IdOf(c, me, me.pc.i))
            && var item := Get(states[i].ledger, IdOf(c, me, me.pc.i));
               item.claimToken == Some(me.pc.hold.token) ==> SendFields(item) == SendFields(me.pc.hold.view)
  {
    hide ItemOk, RecordsOk, InOrder;
    RunKeeps(c, states, steps, i);
    InvParts(c, states[i]);
    var me := states[i].workers[w];
    assert PcOk(c, states[i], me);
  }

  // Two workers never hold one token.
  lemma TokensAreExclusive(c: Catalogue, states: seq<System>, steps: seq<Step>, i: nat, v: nat, w: nat)
    requires WellFormed(c) && IsRun(c, states, steps) && i < |states|
    requires v in states[i].workers && w in states[i].workers
    requires Holding(states[i].workers[v].pc) && Holding(states[i].workers[w].pc)
    requires states[i].workers[v].pc.hold.token == states[i].workers[w].pc.hold.token
    ensures v == w
  {
    hide LedgerOk, PcOk;
    RunKeeps(c, states, steps, i);
  }

  // -------------------------------------------------------------- absorption

  predicate Settled(item: Item) {
    item.status.Succeeded? || TerminalFailure(item)
  }

  // A delivered item stays delivered and a terminally failed one stays failed,
  // although finishing a materialization overwrites the outer status.
  lemma {:induction false} SettledItemsStay(c: Catalogue, states: seq<System>, steps: seq<Step>, i: nat, j: nat,
                                            id: ItemId)
    requires WellFormed(c) && IsRun(c, states, steps) && i <= j < |states|
    requires Has(states[i].ledger, id) && Settled(At(states, i, id))
    ensures Has(states[j].ledger, id)
    ensures Settled(At(states, j, id)) && At(states, j, id).status == At(states, i, id).status
    decreases j
  {
    hide Inv, Apply;
    if i < j {
      SettledItemsStay(c, states, steps, i, j - 1, id);
      OneStep(c, states, steps, j - 1);
      RelyAt(states[j - 1], states[j], ActorOf(states[j - 1], steps[j - 1]), id);
    }
  }

  // An item being sent, or sent, has its media settled for good, so no late
  // materialization can reset it.
  lemma SendingNeedsMaterial(c: Catalogue, states: seq<System>, steps: seq<Step>, i: nat, id: ItemId)
    requires WellFormed(c) && IsRun(c, states, steps) && i < |states| && Has(states[i].ledger, id)
    requires At(states, i, id).status.Sending? || At(states, i, id).status.Succeeded?
    ensures Stable(At(states, i, id))
    ensures forall token, done, now :: FinishMaterial(states[i].ledger, id, token, done, now).1.Err?
  {
    RunKeeps(c, states, steps, i);
    InvParts(c, states[i]);
    assert ItemOk(At(states, i, id), id, LeaseOf(c, states[i].ledger, id.delivery), states[i].clock, states[i].used,
                  states[i].past);
  }

  // ---------------------------------------------------------- order of items

  // An item that was ever claimed for sending had all earlier items of its plan
  // delivered, and still has.
  lemma DeliveryIsInOrder(c: Catalogue, states: seq<System>, steps: seq<Step>, i: nat, delivery: string,
                          fingerprint: string, m: nat, n: nat)
    requires WellFormed(c) && IsRun(c, states, steps) && i < |states|
    requires (delivery, fingerprint) in c && m < n < |c[(delivery, fingerprint)].items|
    requires delivery in states[i].ledger && states[i].ledger[delivery].fingerprint == fingerprint
    requires ItemId(delivery, c[(delivery, fingerprint)].items[n].key) in states[i].past.claimed
    ensures Done(states[i].ledger, ItemId(delivery, c[(delivery, fingerprint)].items[m].key))
  {
    hide ItemOk, PcOk, RecordsOk;
    RunKeeps(c, states, steps, i);
    InvParts(c, states[i]);
    assert DoneBefore(states[i].ledger, delivery, c[(delivery, fingerprint)].items, n);
  }

  // --------------------------------------------------------- order of stages

  // The fallback stage has been touched only if native is unsupported.
  lemma FallbackNeedsUnsupportedNative(c: Catalogue, states: seq<System>, steps: seq<Step>, i: nat, id: ItemId)
    requires WellFormed(c) && IsRun(c, states, steps) && i < |states| && Has(states[i].ledger, id)
    ensures At(states, i, id).fallback != FRESH_STAGE ==> At(states, i, id).native.status.Unsupported?
  {
    hide PcOk, RecordsOk, InOrder;
    RunKeeps(c, states, steps, i);
    InvParts(c, states[i]);
    assert ItemOk(At(states, i, id), id, LeaseOf(c, states[i].ledger, id.delivery), states[i].clock, states[i].used,
                  states[i].past);
  }

  lemma {:induction false} UnsupportedNativeStays(c: Catalogue, states: seq<System>, steps: seq<Step>, i: nat, j: nat,
                                                  id: ItemId)
    requires WellFormed(c) && IsRun(c, states, steps) && i <= j < |states|
    requires Has(states[i].ledger, id) && At(states, i, id).native.status.Unsupported?
    ensures Has(states[j].ledger, id) && At(states, j, id).native.status.Unsupported?
    decreases j
  {
    hide Inv, Apply;
    if i < j {
      UnsupportedNativeStays(c, states, steps, i, j - 1, id);
      OneStep(c, states, steps, j - 1);
      RelyAt(states[j - 1], states[j], ActorOf(states[j - 1], steps[j - 1]), id);
    }
  }

  // ----------------------------------------------------------- reuse of media

  // A native send runs under a claim granted before the fallback had written
  // anything, item-level field included.
  lemma NativeClaimsAreClean(c: Catalogue, states: seq<System>, steps: seq<Step>, i: nat, w: nat)
    requires WellFormed(c) && IsRun(c, states, steps) && i < |states|
    requires w in states[i].workers && states[i].workers[w].pc.Calling? && states[i].workers[w].pc.stage.Native?
    ensures states[i].workers[w].pc.hold.clean
    ensures states[i].workers[w].pc.hold.claim.fallback == FRESH_STAGE
  {
    hide ItemOk, RecordsOk, InOrder;
    RunKeeps(c, states, steps, i);
    InvParts(c, states[i]);
    assert PcOk(c, states[i], states[i].workers[w]);
  }

  // A worker that asks the adapter to upload for a stage had no upload for that
  // stage on record at its grant, except for a fallback upload whose identifier
  // a blank provider answer has overwritten.
  lemma PrepareOnlyOnce(c: Catalogue, states: seq<System>, steps: seq<Step>, i: nat)
    requires WellFormed(c) && IsRun(c, states, steps) && i < |steps|
    requires CallsPrepare(states[i], steps[i])
    ensures var me := states[i].workers[steps[i].w];
            me.pc.stage in me.pc.hold.late ==>
              me.pc.stage.Fallback? && Known(c, me) && me.pc.i < |Plan(c, me).items|
              && IdOf(c, me, me.pc.i) in states[i].past.blankAnswers
  {
    hide ItemOk, RecordsOk, InOrder;
    RunKeeps(c, states, steps, i);
    InvParts(c, states[i]);
    assert PcOk(c, states[i], states[i].workers[steps[i].w]);
  }

  predicate SameHold(a: Hold, b: Hold) {
    a.token == b.token && a.claim == b.claim && a.late == b.late && a.clean == b.clean
  }

  // A claim appears only by being granted, and its snapshot never changes.
  predicate HoldFrom(before: Pc, after: Pc) {
    Holding(after) ==> Holding(before) && SameHold(after.hold, before.hold) && after.i == before.i
  }

  lemma QuietStepsHoldNothing(c: Catalogue, s: System, w: nat, now: Tick, token: string, done: MaterialCompletion,
                              io: Option<string>)
    requires w in s.workers && Known(c, s.workers[w])
    ensures s.workers[w].pc.Idle? ==> !Holding(ApplyPersist(c, s, w, now, io).workers[w].pc)
    ensures s.workers[w].pc.Next? && s.workers[w].pc.i <= |Plan(c, s.workers[w]).items| ==>
              !Holding(ApplyWalk(c, s, w, now, token, io).workers[w].pc)
    ensures AtItem(c, s, w) && s.workers[w].pc.Fetching? ==>
              !Holding(ApplyFetch(c, s, w, now, done, io).workers[w].pc)
    ensures AtItem(c, s, w) && s.workers[w].pc.Closing? ==>
              !Holding(ApplyClose(c, s, w, now, io).workers[w].pc)
  {
    hide PersistPlan, ClaimMaterial, FinishMaterial, FinishItem, ItemOutcome, Moves;
  }

  lemma HolderKeepsHold(c: Catalogue, s: System, w: nat, now: Tick, allowed: Option<Failure>, prepare: PrepareAnswer,
                        stillAllowed: Option<Failure>, io: Option<string>)
    requires AtItem(c, s, w)
    ensures var pc := s.workers[w].pc;
            && (pc.Entering? ==>
                  HoldFrom(pc, ApplyEnter(c, s, w, allowed, prepare, stillAllowed).workers[w].pc))
            && (pc.Uploading? ==> HoldFrom(pc, ApplyStore(c, s, w, now, stillAllowed, io).workers[w].pc))
            && (pc.Settling? ==> HoldFrom(pc, ApplySettle(c, s, w, now, io).workers[w].pc))
  {
    hide RecordUpload, FinishStage, LoadPrepared, StoreUpload, SettleStage, StageOutcome, Moves;
  }

  lemma ClaimHoldsItsToken(c: Catalogue, s: System, w: nat, now: Tick, token: string, hasFallback: bool,
                           io: Option<string>)
    requires AtItem(c, s, w) && s.workers[w].pc.ReadyToClaim?
    ensures var pc := ApplyClaim(c, s, w, now, token, hasFallback, io).workers[w].pc;
            Holding(pc) ==> pc.hold.token == token
  {
    hide ClaimItem, Moves;
  }

  lemma HoldStep(c: Catalogue, s: System, step: Step, w: nat)
    requires Enabled(c, s, step)
    requires var t := Apply(c, s, step); w in t.workers && Holding(t.workers[w].pc)
    ensures w in s.workers
    ensures HoldFrom(s.workers[w].pc, Apply(c, s, step).workers[w].pc)
            || (step.Claim? && step.w == w && Apply(c, s, step).workers[w].pc.hold.token == step.token)
    ensures Apply(c, s, step).workers[w].delivery == s.workers[w].delivery
            && Apply(c, s, step).workers[w].fingerprint == s.workers[w].fingerprint
  {
    hide ApplyPersist, ApplyWalk, ApplyFetch, ApplyClaim, ApplyEnter, ApplyStore, ApplySettle, ApplyClose, Reconcile,
         Judge;
    match step
    case Spawn(_, _, _, _) =>
    case Persist(v, now, io) =>
      QuietStepsHoldNothing(c, s, v, now, "", MaterialCompletion(false, None, None, false, None), io);
    case Walk(v, now, token, io) =>
      QuietStepsHoldNothing(c, s, v, now, token, MaterialCompletion(false, None, None, false, None), io);
    case Fetch(v, now, done, io) => QuietStepsHoldNothing(c, s, v, now, "", done, io);
    case Claim(v, now, token, hasFallback, io) => ClaimHoldsItsToken(c, s, v, now, token, hasFallback, io);
    case Enter(v, allowed, prepare, stillAllowed) =>
      HolderKeepsHold(c, s, v, s.clock, allowed, prepare, stillAllowed, None);
    case Store(v, now, stillAllowed, io) => HolderKeepsHold(c, s, v, now, None, NothingToUpload, stillAllowed, io);
    case Call(_, _) =>
    case Settle(v, now, io) => HolderKeepsHold(c, s, v, now, None, NothingToUpload, None, io);
    case Close(v, now, io) =>
      QuietStepsHoldNothing(c, s, v, now, "", MaterialCompletion(false, None, None, false, None), io);
    case Sweep(_, _) =>
  }

  predicate Granted(states: seq<System>, steps: seq<Step>, g: nat, w: nat)
    requires |states| == |steps| + 1 && g < |steps|
  {
    && steps[g].Claim? && steps[g].w == w
    && w in states[g + 1].workers && Holding(states[g + 1].workers[w].pc)
    && states[g + 1].workers[w].pc.hold.token == steps[g].token
  }

  // What a claim remembers at its grant.
  lemma GrantRemembers(c: Catalogue, s: System, step: Step)
    requires step.Claim? && Enabled(c, s, step)
    requires Holding(Apply(c, s, step).workers[step.w].pc)
    ensures var me := s.workers[step.w];
            var hold := Apply(c, s, step).workers[step.w].pc.hold;
            && hold.token == step.token && step.token in Apply(c, s, step).used
            && Apply(c, s, step).workers[step.w].pc.i == me.pc.i
            && (forall name :: name in hold.late <==> (IdOf(c, me, me.pc.i), name) in s.past.uploads)
            && (hold.clean <==> IdOf(c, me, me.pc.i) !in s.past.fallbackMedia)
  {
    hide PersistPlan, ClaimMaterial, FinishMaterial, ClaimItem, RecordUpload, FinishStage, FinishItem, Reconcile, Judge;
    var me := s.workers[step.w];
    var id := IdOf(c, me, me.pc.i);
    var reply := ClaimItem(s.ledger, RequestOf(c, me), step.token, step.now).1;
    assert step.io.None? && reply.Claimed?;
    var hold := HoldOn(s.past, id, step.token, reply.item, step.hasFallback);
    assert Apply(c, s, step).workers[step.w].pc == AfterGrant(me.pc.i, hold);
    forall name
      ensures name in hold.late <==> (id, name) in s.past.uploads
    {
      match name
      case Native =>
      case Fallback =>
    }
  }

  lemma {:induction false} HoldIsFixed(c: Catalogue, states: seq<System>, steps: seq<Step>, g: nat, i: nat, w: nat)
    requires WellFormed(c) && IsRun(c, states, steps) && g < i < |states| && Granted(states, steps, g, w)
    requires w in states[i].workers && Holding(states[i].workers[w].pc)
             && states[i].workers[w].pc.hold.token == steps[g].token
    ensures SameHold(states[i].workers[w].pc.hold, states[g + 1].workers[w].pc.hold)
    ensures states[i].workers[w].pc.i == states[g + 1].workers[w].pc.i
    ensures states[i].workers[w].delivery == states[g + 1].workers[w].delivery
            && states[i].workers[w].fingerprint == states[g + 1].workers[w].fingerprint
    decreases i
  {
    hide Inv, Apply;
    if g + 1 < i {
      HoldStep(c, states[i - 1], steps[i - 1], w);
      TokenWasUsed(c, states, steps, g, i - 1);
      HoldIsFixed(c, states, steps, g, i - 1, w);
    }
  }

  lemma {:induction false} TokenWasUsed(c: Catalogue, states: seq<System>, steps: seq<Step>, g: nat, i: nat)
    requires WellFormed(c) && IsRun(c, states, steps) && g < i < |states|
    requires steps[g].Claim? && Granted(states, steps, g, steps[g].w)
    ensures steps[g].token in states[i].used
    decreases i
  {
    hide Inv, Apply;
    if g + 1 == i {
      GrantRemembers(c, states[g], steps[g]);
    } else {
      TokenWasUsed(c, states, steps, g, i - 1);
      OneStep(c, states, steps, i - 1);
    }
  }

  // Once an upload with a usable identifier is on record, no claim granted
  // later asks the adapter to upload for that stage again, unless a blank
  // answer of the provider has overwritten the fallback's identifier.
  lemma NoSecondUpload(c: Catalogue, states: seq<System>, steps: seq<Step>, k: nat, g: nat, i: nat, id: ItemId,
                       name: StageName)
    requires WellFormed(c) && IsRun(c, states, steps) && k <= g < i < |steps|
    requires (id, name) in states[k].past.uploads
    requires CallsPrepare(states[i], steps[i]) && Granted(states, steps, g, steps[i].w)
    requires var me := states[i].workers[steps[i].w];
             && me.pc.stage == name && me.pc.hold.token == steps[g].token
             && Known(c, me) && me.pc.i < |Plan(c, me).items| && id == IdOf(c, me, me.pc.i)
    ensures name.Fallback? && id in states[i].past.blankAnswers
  {
    hide Inv, Apply;
    UploadsStay(c, states, steps, k, g, id, name);
    HoldIsFixed(c, states, steps, g, i, steps[i].w);
    GrantRemembers(c, states[g], steps[g]);
    HoldStep(c, states[g], steps[g], steps[i].w);
    PrepareOnlyOnce(c, states, steps, i);
  }

  lemma {:induction false} UploadsStay(c: Catalogue, states: seq<System>, steps: seq<Step>, i: nat, j: nat, id: ItemId,
                                       name: StageName)
    requires WellFormed(c) && IsRun(c, states, steps) && i <= j < |states|
    requires (id, name) in states[i].past.uploads
    ensures (id, name) in states[j].past.uploads
    decreases j
  {
    hide Inv, Apply;
    if i < j {
      UploadsStay(c, states, steps, i, j - 1, id, name);
      HistoryGrows(c, states[j - 1], steps[j - 1]);
    }
  }

  lemma HistoryGrows(c: Catalogue, s: System, step: Step)
    requires Enabled(c, s, step)
    ensures s.past.uploads <= Apply(c, s, step).past.uploads
    ensures s.past.expired <= Apply(c, s, step).past.expired
  {
    hide ApplyPersist, ApplyWalk, ApplyFetch, ApplyClaim, ApplyEnter, ApplyStore, ApplySettle, ApplyClose, Reconcile,
         Judge;
  }

  // ------------------------------------------------------- recovery of plans

  // An undelivered plan none of whose items expired is listed for recovery
  // exactly when no item failed terminally; so every plan is complete,
  // terminally failed, or listed.
  lemma NoPlanIsLost(c: Catalogue, states: seq<System>, steps: seq<Step>, i: nat, d: string)
    requires WellFormed(c) && IsRun(c, states, steps) && i < |states|
    requires d in states[i].ledger
    requires forall k :: k in states[i].ledger[d].items ==> ItemId(d, k) !in states[i].past.expired
    ensures var items := states[i].ledger[d].items;
            Listed(states[i].ledger[d]) <==>
              (exists k :: k in items && !items[k].status.Succeeded?)
              && (forall k :: k in items ==> !TerminalFailure(items[k]))
  {
    hide PcOk, InOrder;
    RunKeeps(c, states, steps, i);
    InvParts(c, states[i]);
    var l := states[i].ledger;
    var items := l[d].items;
    assert RecordMatches(c[(d, l[d].fingerprint)], l[d]);
    forall k | k in items
      ensures !TerminalFailure(items[k]) ==>
                (OpenStatus(items[k]) && items[k].retryable <==> !items[k].status.Succeeded?)
    {
      var id := ItemId(d, k);
      assert Has(l, id) && Get(l, id) == items[k];
      assert ItemOk(Get(l, id), id, LeaseOf(c, l, d), states[i].clock, states[i].used, states[i].past);
    }
  }

  // ------------------------------------------------------------ cache expiry

  // Reconciliation never changes the status of an item under a running lease,
  // provided the cache outlives the lease by a second: `updated_at` drops the
  // fraction of a second.
  lemma LiveLeaseSurvivesSweep(c: Catalogue, states: seq<System>, steps: seq<Step>, i: nat, id: ItemId)
    requires WellFormed(c) && IsRun(c, states, steps) && i < |steps|
    requires steps[i].Sweep? && Has(states[i].ledger, id)
    requires var item := At(states, i, id);
             item.status.Sending? && item.claimExpiresAt.At? && item.claimExpiresAt.time > steps[i].now
    requires LeaseOf(c, states[i].ledger, id.delivery) + SECOND <= steps[i].ttl
    ensures Has(states[i + 1].ledger, id)
    ensures At(states, i + 1, id).status.Sending?
    ensures At(states, i + 1, id).claimToken == At(states, i, id).claimToken
            && At(states, i + 1, id).claimExpiresAt == At(states, i, id).claimExpiresAt
  {
    hide PcOk, RecordsOk, InOrder;
    RunKeeps(c, states, steps, i);
    InvParts(c, states[i]);
    var item := At(states, i, id);
    assert ItemOk(item, id, LeaseOf(c, states[i].ledger, id.delivery), states[i].clock, states[i].used, states[i].past);
    assert At(states, i + 1, id) == Reconciled(item, steps[i].now, steps[i].ttl);
  }
}
