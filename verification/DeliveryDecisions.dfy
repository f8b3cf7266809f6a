// What each step of a worker writes and where the worker goes, stated on the item
// on record, the answer it got and the clock, in every reachable state.
module DeliveryDecisions {
  import opened Prelude
  import opened DeliveryLedger
  import opened DeliveryWorkers
  import opened DeliveryInvariants
  import opened DeliverySteps
  import opened DeliveryTheorems
  import opened DeliveryFailures

  // Only this item changed.
  ghost predicate OnlyChanges(l: Ledger, after: Ledger, id: ItemId) {
    && (forall other :: Has(after, other) <==> Has(l, other))
    && forall other :: Has(l, other) && other != id ==> Get(after, other) == Get(l, other)
  }

  // ---------------------------------------------------------------- planning

  // An item as a plan first records it.
  predicate FirstRecorded(p: PlanItem, item: Item, fingerprint: string) {
    && item.status.Pending? && item.retryable && item.attempts == 0 && item.claimToken.None? && item.owner.None?
    && item.artifactId == p.artifactId && item.kind == p.kind && item.fingerprint == Some(fingerprint)
    && item.planned == Some(p.outbound) && item.cachePath.None? && item.materialized.None?
    && item.native.status == Untried == item.fallback.status && item.native.mediaId.None? && item.fallback.mediaId.None?
    && item.mediaId.None? && item.clientId.None? && item.messageId.None? && item.lastError.None?
    && item.materialization.Some?
    && item.materialization.value.status == (if p.materialize then Waiting else NotRequired)
  }

  // A plan is recorded whole the first time, found the next, and refused where
  // the key stands for another request.
  lemma PersistDecides(c: Catalogue, s: System, step: Step)
    requires Inv(c, s) && step.Persist? && Enabled(c, s, step)
    ensures var t, me := Apply(c, s, step), s.workers[step.w];
            var plan := Plan(c, me);
            if step.io.Some? || (me.delivery in s.ledger && s.ledger[me.delivery].fingerprint != me.fingerprint) then
              t.ledger == s.ledger && t.workers[step.w].pc == Stopped
            else
              && t.workers[step.w].pc == Next(0)
              && if me.delivery in s.ledger then t.ledger == s.ledger
                 else
                   && me.delivery in t.ledger && t.ledger == s.ledger[me.delivery := t.ledger[me.delivery]]
                   && t.ledger[me.delivery].fingerprint == me.fingerprint
                   && t.ledger[me.delivery].planned == Some(plan.outbound)
                   && (forall k :: k in t.ledger[me.delivery].items <==>
                         exists n :: 0 <= n < |plan.items| && plan.items[n].key == k)
                   && forall n :: 0 <= n < |plan.items| ==>
                                    plan.items[n].key in t.ledger[me.delivery].items
                                    && FirstRecorded(plan.items[n], t.ledger[me.delivery].items[plan.items[n].key],
                                                     me.fingerprint)
  {
    hide PersistPlan, RecordMatches, InOrder, ItemOk, NewRecord, FirstRecorded;
    InvParts(c, s);
    var me := s.workers[step.w];
    PersistEffect(c, s, me, step.now);
    if me.delivery !in s.ledger && step.io.None? {
      NewRecordIs(Plan(c, me), Apply(c, s, step).ledger[me.delivery], me.fingerprint, step.now);
    }
  }

  lemma NewRecordIs(d: Delivery, r: Record, fingerprint: string, now: Tick)
    requires NewRecord(d, r, fingerprint, now)
    ensures r.fingerprint == fingerprint && r.planned == Some(d.outbound)
    ensures forall k :: k in r.items <==> exists n :: 0 <= n < |d.items| && d.items[n].key == k
    ensures forall n :: 0 <= n < |d.items| ==>
                          d.items[n].key in r.items && FirstRecorded(d.items[n], r.items[d.items[n].key], fingerprint)
  {
  }

  // ------------------------------------------------------------ claiming an item

  // Another worker is sending the item.
  predicate InHand(item: Item, now: Tick) {
    item.status.Sending? && item.claimExpiresAt.At? && item.claimExpiresAt.time > now
  }

  // The item as claimed for `seconds`, at least one.
  predicate ClaimedAs(item: Item, after: Item, owner: string, token: string, path: Option<string>, seconds: nat,
                      now: Tick)
  {
    && after == item.(
       status := Sending, attempts := after.attempts, owner := Some(owner), claimToken := Some(token),
       claimExpiresAt := At(now + (if seconds == 0 then 1 else seconds) * 1_000_000_000),
       cachePath := path, updatedAt := after.updatedAt)
    && after.attempts == (if item.attempts >= 0xFFFF_FFFF_FFFF_FFFF then 0xFFFF_FFFF_FFFF_FFFF else item.attempts + 1)
    && after.updatedAt.Some? && after.updatedAt.value <= now < after.updatedAt.value + 1_000_000_000
    && after.updatedAt.value % 1_000_000_000 == 0
  }

  // Where a worker goes with a claim it was granted.
  predicate StartsStage(pc: Pc, n: nat, item: Item, hasFallback: bool) {
    && Holding(pc) && pc.i == n && pc.hold.claim == item
    && if !item.native.status.Unsupported? then pc.Entering? && pc.stage == Native
       else if hasFallback then pc.Entering? && pc.stage == Fallback
       else pc.Closing? && pc.answer.NotSent? && !pc.fallbackUsed && pc.prepared.None?
  }

  lemma ClaimAnswers(item: Item, r: ClaimRequest, token: string, now: Tick)
    requires item.artifactId == r.artifactId && item.kind == r.kind && item.fingerprint == Some(r.fingerprint)
    requires item.status.Sending? ==> item.claimExpiresAt.At? && item.updatedAt.Some?
    ensures var reply := ClaimAnswer(item, r, token, now);
            if item.status.Succeeded? then reply == AlreadySucceeded(item)
            else if FailedForGood(item) then reply == TerminallyFailed(item)
            else if InHand(item, now) then reply == Busy(item)
            else && reply.Claimed? && reply.token == token && reply.previousPath == item.cachePath
                 && ClaimedAs(item, reply.item, r.owner, token, r.cachePath, r.leaseSeconds, now)
  {
    assert item.(fingerprint := Some(r.fingerprint)) == item;
    assert (now / SECOND * SECOND) % SECOND == 0;
  }

  lemma StartsAfterGrant(n: nat, past: History, id: ItemId, token: string, item: Item, hasFallback: bool)
    ensures var pc := AfterGrant(n, HoldOn(past, id, token, item, hasFallback));
            StartsStage(pc, n, item, hasFallback) && pc.hold.token == token && pc.hold.hasFallback == hasFallback
  {
  }

  // Delivered and hopeless items are told apart from one in another worker's
  // hands; any other is granted, for exactly its lease.
  lemma ClaimDecides(c: Catalogue, s: System, step: Step)
    requires Inv(c, s) && step.Claim? && Enabled(c, s, step) && step.io.None?
    ensures var t := Apply(c, s, step);
            var me := s.workers[step.w];
            var n, id := me.pc.i, IdOf(c, me, me.pc.i);
            && Has(s.ledger, id)
            && var item := Get(s.ledger, id);
               var reply := ClaimItem(s.ledger, RequestOf(c, me), step.token, step.now).1;
               && (reply.AlreadySucceeded? <==> item.status.Succeeded?)
               && (reply.TerminallyFailed? <==> FailedForGood(item))
               && (reply.Busy? <==> InHand(item, step.now))
               && if item.status.Succeeded? then t.ledger == s.ledger && t.workers[step.w].pc == Next(n + 1)
                  else if FailedForGood(item) || InHand(item, step.now) then
                    t.ledger == s.ledger && t.workers[step.w].pc == Stopped
                  else
                    && OnlyChanges(s.ledger, t.ledger, id)
                    && ClaimedAs(item, Get(t.ledger, id), me.owner, step.token, me.pc.path,
                                 Plan(c, me).leaseSeconds, step.now)
                    && StartsStage(t.workers[step.w].pc, n, Get(t.ledger, id), step.hasFallback)
                    && t.workers[step.w].pc.hold.token == step.token
  {
    hide Inv, ItemOk, ItemMatches, AtItemOk, ClaimAnswer, ClaimItem, AfterGrant, HoldOn, ClaimedAs, StartsStage;
    var me := s.workers[step.w];
    ItemIsKnown(c, s, step.w);
    var id := IdOf(c, me, me.pc.i);
    var item := Get(s.ledger, id);
    var r := RequestOf(c, me);
    ClaimAnswers(item, r, step.token, step.now);
    ClaimReads(s.ledger, r, step.token, step.now);
    var reply := ClaimAnswer(item, r, step.token, step.now);
    if reply.Claimed? {
      ClaimIsPut(s.ledger, r, step.token, step.now);
      StartsAfterGrant(me.pc.i, s.past, id, step.token, reply.item, step.hasFallback);
    }
  }

  lemma ItemIsKnown(c: Catalogue, s: System, w: nat)
    requires Inv(c, s) && AtItem(c, s, w)
    ensures var me := s.workers[w];
            var p, id := Plan(c, me).items[me.pc.i], IdOf(c, me, me.pc.i);
            && Has(s.ledger, id) && me.delivery in s.ledger && s.ledger[me.delivery].fingerprint == me.fingerprint
            && var item := Get(s.ledger, id);
               && item.artifactId == p.artifactId && item.kind == p.kind && item.fingerprint == Some(me.fingerprint)
               && (item.status.Sending? ==> item.claimExpiresAt.At? && item.updatedAt.Some?)
               && item.materialization.Some? && NestedOk(item.materialization.value)
               && (item.materialization.value.status.NotRequired? <==> !p.materialize)
  {
    hide Inv, UploadsOk;
    Standing(c, s, w, s.workers[w].pc.i);
  }

  lemma ClaimReads(l: Ledger, r: ClaimRequest, token: string, now: Tick)
    requires var id := ItemId(r.delivery, r.item); Has(l, id) && l[r.delivery].fingerprint == r.fingerprint
    ensures var reply := ClaimAnswer(Get(l, ItemId(r.delivery, r.item)), r, token, now);
            ClaimItem(l, r, token, now).1 == reply && (!reply.Claimed? ==> ClaimItem(l, r, token, now).0 == l)
  {
  }

  // ------------------------------------------------------- fetching its media

  // Another worker is fetching the media.
  predicate BeingFetched(m: Materialization, now: Tick) {
    m.status.Materializing? && m.claimExpiresAt.At? && m.claimExpiresAt.time > now
  }

  predicate FetchedInVain(m: Materialization) {
    m.status.MaterialFailed? && !m.retryable
  }

  // The media as claimed for `seconds`, at least one.
  predicate FetchClaimedAs(m: Materialization, after: Materialization, owner: string, token: string, seconds: nat,
                           now: Tick)
  {
    && after == m.(
       status := Materializing, attempts := after.attempts, owner := Some(owner), claimToken := Some(token),
       claimExpiresAt := At(now + (if seconds == 0 then 1 else seconds) * 1_000_000_000), updatedAt := after.updatedAt)
    && after.attempts == (if m.attempts >= 0xFFFF_FFFF_FFFF_FFFF then 0xFFFF_FFFF_FFFF_FFFF else m.attempts + 1)
    && after.updatedAt.Some? && after.updatedAt.value <= now < after.updatedAt.value + 1_000_000_000
  }

  lemma MaterialAnswers(item: Item, owner: string, seconds: nat, token: string, now: Tick)
    requires item.materialization.Some? && NestedOk(item.materialization.value)
    ensures var m := item.materialization.value;
            var reply := MaterialAnswer(item, owner, seconds, token, now);
            if m.status.Materialized? then reply == MaterialReady(item)
            else if m.status.NotRequired? then reply == MaterialNotRequired(item)
            else if FetchedInVain(m) then reply == MaterialTerminal(item)
            else if BeingFetched(m, now) then reply == MaterialBusy(item)
            else && reply.MaterialClaimed? && reply.token == token && reply.item.materialization.Some?
                 && FetchClaimedAs(m, reply.item.materialization.value, owner, token, seconds, now)
                 && reply.item == item.(materialization := reply.item.materialization)
  {
  }

  // A worker goes straight to sending what needs no fetching or has been fetched;
  // it stops where fetching was in vain or another worker is at it.
  lemma WalkDecides(c: Catalogue, s: System, step: Step)
    requires Inv(c, s) && step.Walk? && Enabled(c, s, step)
    ensures var t, me := Apply(c, s, step), s.workers[step.w];
            var n, plan := me.pc.i, Plan(c, me);
            if n == |plan.items| then t.ledger == s.ledger && t.workers[step.w].pc == Stopped
            else if !plan.items[n].materialize then
              t.ledger == s.ledger && t.workers[step.w].pc == ReadyToClaim(n, Trimmed(plan.items[n].outbound.path))
            else if step.io.Some? then t.ledger == s.ledger && t.workers[step.w].pc == Stopped
            else
              var id := IdOf(c, me, n);
              && Has(s.ledger, id) && Get(s.ledger, id).materialization.Some?
              && var item, m := Get(s.ledger, id), Get(s.ledger, id).materialization.value;
                 var reply := ClaimMaterial(s.ledger, id, me.owner, plan.leaseSeconds, step.token, step.now).1;
                 && (reply.MaterialTerminal? <==> FetchedInVain(m))
                 && (reply.MaterialBusy? <==> BeingFetched(m, step.now))
                 && if m.status.Materialized? then
                      && t.ledger == s.ledger && item.materialized.Some?
                      && t.workers[step.w].pc == ReadyToClaim(n, Trimmed(item.materialized.value.path))
                    else if FetchedInVain(m) || BeingFetched(m, step.now) then
                      t.ledger == s.ledger && t.workers[step.w].pc == Stopped
                    else
                      && t.workers[step.w].pc == Fetching(n, step.token) && OnlyChanges(s.ledger, t.ledger, id)
                      && Get(t.ledger, id).materialization.Some?
                      && Get(t.ledger, id) == item.(materialization := Get(t.ledger, id).materialization)
                      && FetchClaimedAs(m, Get(t.ledger, id).materialization.value, me.owner, step.token,
                                        plan.leaseSeconds, step.now)
  {
    hide Inv, MaterialAnswer, Trimmed, FetchClaimedAs, ItemOk;
    var me := s.workers[step.w];
    var n := me.pc.i;
    if n < |Plan(c, me).items| {
      PlaceIsKnown(c, s, step.w, n);
      MaterialAnswers(Get(s.ledger, IdOf(c, me, n)), me.owner, Plan(c, me).leaseSeconds, step.token, step.now);
    }
  }

  lemma PlaceIsKnown(c: Catalogue, s: System, w: nat, n: nat)
    requires Inv(c, s) && StandsAt(c, s, w, n)
    ensures var me := s.workers[w];
            var id := IdOf(c, me, n);
            && Has(s.ledger, id)
            && var item := Get(s.ledger, id);
               && item.materialization.Some? && NestedOk(item.materialization.value)
               && (item.materialization.value.status.Materialized? ==> item.materialized.Some?)
               && (item.materialization.value.status.NotRequired? <==> !Plan(c, me).items[n].materialize)
  {
    hide Inv, UploadsOk;
    Standing(c, s, w, n);
  }

  // The payload, ready to be sent, or why there is none.
  predicate FetchRecorded(a: Item, b: Item, done: MaterialCompletion) {
    && b.materialization.Some? && b.materialization.value.claimToken.None?
    && b.status == (if done.ready then Pending else Failed)
    && b.materialization.value.status == (if done.ready then Materialized else MaterialFailed)
    && b.retryable == done.retryable == b.materialization.value.retryable
    && b.lastError == done.lastError && b.cachePath == done.cachePath
    && b.materialized == (if done.outbound.Some? then done.outbound else a.materialized)
    && b.native == a.native && b.fallback == a.fallback && b.claimToken == a.claimToken
    && b.mediaId == a.mediaId && b.messageId == a.messageId && b.attempts == a.attempts
  }

  lemma FetchAsDone(item: Item, done: MaterialCompletion, now: Tick)
    requires item.materialization.Some?
    ensures FetchRecorded(item, SettleMaterial(item, done, now), done)
  {
  }

  // A fetch is recorded as it went, or not at all once the claim is lost.
  lemma FetchDecides(c: Catalogue, s: System, step: Step)
    requires Inv(c, s) && step.Fetch? && Enabled(c, s, step)
    ensures var t, me := Apply(c, s, step), s.workers[step.w];
            var n, id, done := me.pc.i, IdOf(c, me, me.pc.i), step.done;
            && Has(s.ledger, id) && Get(s.ledger, id).materialization.Some?
            && var m := Get(s.ledger, id).materialization.value;
               if step.io.None? && BeingFetched(m, step.now) && m.claimToken == Some(me.pc.token) then
                 && OnlyChanges(s.ledger, t.ledger, id)
                 && FetchRecorded(Get(s.ledger, id), Get(t.ledger, id), done)
                 && t.workers[step.w].pc == if done.ready then ReadyToClaim(n, Trimmed(done.cachePath)) else Stopped
               else t.ledger == s.ledger && t.workers[step.w].pc == Stopped
  {
    hide Inv, Trimmed, ItemOk, SettleMaterial, FetchRecorded;
    var me := s.workers[step.w];
    PlaceIsKnown(c, s, step.w, me.pc.i);
    FetchAsDone(Get(s.ledger, IdOf(c, me, me.pc.i)), step.done, step.now);
  }

  // ---------------------------------------------------------- sending a stage

  // The media identifier a claim snapshot has for the stage, its own before the
  // one it shares with the native form.
  function OnHand(claim: Item, name: StageName): Option<string> {
    var own := if name.Native? then claim.native.mediaId else claim.fallback.mediaId;
    if NonBlank(own) then own else if name.Native? && NonBlank(claim.mediaId) then claim.mediaId else None
  }

  lemma PreparedIsOnHand(claim: Item, name: StageName)
    ensures LoadPrepared(claim, name).Some? <==> OnHand(claim, name).Some?
    ensures OnHand(claim, name).Some? ==>
              LoadPrepared(claim, name).value.mediaId == Trim(OnHand(claim, name).value)
  {
    hide Trim;
  }

  // Whether the worker sends, uploads first, or gives the stage up: a refused
  // authorization always ends it, and media on hand are not uploaded again.
  lemma EnterDecides(c: Catalogue, s: System, step: Step)
    requires step.Enter? && Enabled(c, s, step)
    ensures var before, pc := s.workers[step.w].pc, Apply(c, s, step).workers[step.w].pc;
            var onHand := OnHand(before.hold.claim, before.stage);
            && Apply(c, s, step).ledger == s.ledger
            && Holding(pc) && pc.i == before.i && pc.hold == before.hold && !pc.Entering? && !pc.Closing?
            && pc.stage == before.stage
            && if step.allowed.Some? then pc.Settling? && pc.answer == NotSent(step.allowed.value)
               else if onHand.Some? then
                 pc.Calling? && pc.prepared.Some? && pc.prepared.value.mediaId == Trim(onHand.value)
               else
                 match step.prepare
                 case Uploaded(u) => pc.Uploading? && pc.upload == u
                 case PrepareFailed(f) => pc.Settling? && pc.answer == NotSent(f) && pc.prepared.None?
                 case NothingToUpload =>
                   if step.stillAllowed.Some? then
                     pc.Settling? && pc.answer == NotSent(step.stillAllowed.value) && pc.prepared.None?
                   else pc.Calling? && pc.prepared.None?
  {
    hide LoadPrepared, OnHand, Trim;
    var pc := s.workers[step.w].pc;
    PreparedIsOnHand(pc.hold.claim, pc.stage);
  }

  // The step lets its worker call the platform: authorization was granted, and
  // again after anything was prepared.
  predicate Authorizes(s: System, step: Step, w: nat) {
    && w in s.workers
    && match step
       case Enter(v, allowed, prepare, stillAllowed) =>
         && v == w && s.workers[w].pc.Entering? && allowed.None?
         && (OnHand(s.workers[w].pc.hold.claim, s.workers[w].pc.stage).Some?
             || (prepare.NothingToUpload? && stillAllowed.None?))
       case Store(v, _, stillAllowed, _) => v == w && stillAllowed.None?
       case _ => false
  }

  lemma CallsAreAuthorized(c: Catalogue, s: System, step: Step, w: nat)
    requires Enabled(c, s, step) && w in Apply(c, s, step).workers && Apply(c, s, step).workers[w].pc.Calling?
    ensures w in s.workers
    ensures Apply(c, s, step).workers[w] == s.workers[w] || Authorizes(s, step, w)
  {
    hide PersistPlan, ClaimMaterial, FinishMaterial, ClaimItem, RecordUpload, FinishStage, FinishItem, Reconcile, Judge,
         LoadPrepared, OnHand, StageOutcome, ItemOutcome;
    if step.Enter? {
      PreparedIsOnHand(s.workers[step.w].pc.hold.claim, s.workers[step.w].pc.stage);
    }
  }

  // In every run the platform is called only by a worker whose last step was
  // authorized.
  lemma {:induction false} SendsAreAuthorized(c: Catalogue, states: seq<System>, steps: seq<Step>, j: nat, w: nat)
    requires IsRun(c, states, steps) && j < |states|
    requires w in states[j].workers && states[j].workers[w].pc.Calling?
    ensures exists t :: 0 <= t < j && Authorizes(states[t], steps[t], w)
                        && w in states[t + 1].workers && states[t + 1].workers[w] == states[j].workers[w]
  {
    hide Apply, Enabled, Authorizes;
    CallsAreAuthorized(c, states[j - 1], steps[j - 1], w);
    if !Authorizes(states[j - 1], steps[j - 1], w) {
      SendsAreAuthorized(c, states, steps, j - 1, w);
    }
  }

  // An upload is put on record, for its stage and for the item, before it is used.
  lemma StoreDecides(c: Catalogue, s: System, step: Step)
    requires Inv(c, s) && step.Store? && Enabled(c, s, step)
    ensures var t, me := Apply(c, s, step), s.workers[step.w];
            var id, u, name := IdOf(c, me, me.pc.i), me.pc.upload, me.pc.stage;
            var pc := t.workers[step.w].pc;
            && Has(s.ledger, id)
            && if step.io.None? && Holds(Get(s.ledger, id), me.pc.hold.token, step.now) then
                 && OnlyChanges(s.ledger, t.ledger, id)
                 && var a, b := Get(s.ledger, id), Get(t.ledger, id);
                    && b.StageOf(name).status == Prepared && b.StageOf(name).mediaId == Some(u.mediaId) == b.mediaId
                    && b.StageOf(name).clientId == u.clientId && b.StageOf(name).mediaState == u.state == b.mediaState
                    && b.clientId == (if u.clientId.Some? then u.clientId else a.clientId)
                    && (if name.Native? then b.fallback == a.fallback else b.native == a.native)
                    && b.status == a.status && b.claimToken == a.claimToken && b.claimExpiresAt == a.claimExpiresAt
                    && (if step.stillAllowed.None? then pc.Calling? && pc.prepared == Some(u) && pc.stage == name
                        else pc.Settling? && pc.answer == NotSent(step.stillAllowed.value) && pc.stage == name)
               else
                 && t.ledger == s.ledger && pc.Closing? && pc.answer.NotSent?
                 && pc.answer.failure.code == "INFRASTRUCTURE_ERROR"
  {
    hide Inv, Holds, ClaimFault;
    HoldsIsActive(c, s, step.w, step.now);
  }

  // The platform cannot take the native form: another form may do.
  predicate NativeIsNotTaken(answer: Answer) {
    && answer.NotSent?
    && (answer.failure.code == "UNSUPPORTED_NATIVE_VIDEO" || answer.failure.code == "NATIVE_MEDIA_PRE_SEND_FAILED")
  }

  // What is recorded of a stage, and whether the fallback is tried: just when the
  // native form was not taken and there is one.
  lemma SettleDecides(c: Catalogue, s: System, step: Step)
    requires Inv(c, s) && step.Settle? && Enabled(c, s, step)
    ensures var t, me := Apply(c, s, step), s.workers[step.w];
            var id, name, answer, prepared := IdOf(c, me, me.pc.i), me.pc.stage, me.pc.answer, me.pc.prepared;
            var pc := t.workers[step.w].pc;
            && Has(s.ledger, id)
            && if step.io.None? && Holds(Get(s.ledger, id), me.pc.hold.token, step.now) then
                 && OnlyChanges(s.ledger, t.ledger, id)
                 && var a, b := Get(s.ledger, id), Get(t.ledger, id);
                    && b == a.(native := b.native, fallback := b.fallback)
                    && (if name.Native? then b.fallback == a.fallback else b.native == a.native)
                    && StageRecorded(a.StageOf(name), b.StageOf(name), answer, prepared)
                    && (if name.Native? && NativeIsNotTaken(answer) && me.pc.hold.hasFallback then
                          pc.Entering? && pc.stage == Fallback && pc.i == me.pc.i && pc.hold.claim == me.pc.hold.claim
                        else
                          && pc.Closing? && pc.i == me.pc.i && pc.answer == answer && pc.prepared == prepared
                          && pc.fallbackUsed == name.Fallback?)
               else
                 && t.ledger == s.ledger && pc.Closing? && pc.answer.NotSent?
                 && pc.answer.failure.code == "INFRASTRUCTURE_ERROR"
  {
    hide Inv, Holds, ClaimFault, StageOutcome, StageRecorded;
    var pc := s.workers[step.w].pc;
    HoldsIsActive(c, s, step.w, step.now);
    StageAsAnswered(Get(s.ledger, IdOf(c, s.workers[step.w], pc.i)), pc.stage, pc.answer, pc.prepared);
  }

  ghost predicate StageRecorded(a: Stage, b: Stage, answer: Answer, prepared: Option<Upload>) {
    match answer
    case Sent(r) =>
      && b.status == Delivered && !b.retryable && b.lastError.None?
      && b.mediaId == (if r.mediaId.Some? then r.mediaId
                       else if prepared.Some? then Some(prepared.value.mediaId) else a.mediaId)
      && b.messageId == (if NonBlank(r.messageId) then r.messageId else a.messageId)
    case NotSent(f) =>
      && b.status == (if NativeIsNotTaken(answer) then Unsupported else Refused) && b.lastError == Some(f.message)
      && (b.retryable <==> !NativeIsNotTaken(answer) && !Hopeless(f.message))
      && b.mediaId == (if prepared.Some? then Some(prepared.value.mediaId) else a.mediaId)
  }

  lemma StageAsAnswered(item: Item, name: StageName, answer: Answer, prepared: Option<Upload>)
    ensures var after := SettleStage(item, name, StageOutcome(answer, prepared));
            && after == item.(native := after.native, fallback := after.fallback)
            && (if name.Native? then after.fallback == item.fallback else after.native == item.native)
            && StageRecorded(item.StageOf(name), after.StageOf(name), answer, prepared)
  {
    hide RetryableMessage, Hopeless, Blank;
    if answer.NotSent? {
      RetryableMeansHope(answer.failure.message);
    }
  }

  // -------------------------------------------------------------- the cache

  // The item may still be sent, and is not older than the cache keeps files.
  predicate StillWanted(item: Item, now: Tick, ttl: Tick) {
    && (item.status.Pending? || item.status.Sending? || item.status.Failed?) && item.retryable
    && (item.updatedAt.None? || now - item.updatedAt.value <= ttl)
  }

  // Reconciliation keeps the file of an item that is still wanted, gives up every
  // other, and ends an item that waited too long.
  lemma ReconciliationDecides(l: Ledger, id: ItemId, now: Tick, ttl: Tick)
    requires Has(l, id)
    ensures Has(Reconcile(l, now, ttl), id)
    ensures var a, b := Get(l, id), Get(Reconcile(l, now, ttl), id);
            && (forall path :: Judge(a, now, ttl) == Retain(path) <==>
                  NonBlank(a.cachePath) && StillWanted(a, now, ttl) && path == Trim(a.cachePath.value))
            && (forall path, late :: Judge(a, now, ttl) == Drop(path, late) ==> path == Trim(a.cachePath.value))
            && (Judge(a, now, ttl).Drop? <==> NonBlank(a.cachePath) && !StillWanted(a, now, ttl))
            && if !NonBlank(a.cachePath) then b == a
               else if StillWanted(a, now, ttl) then
                 b == a.(updatedAt := if a.updatedAt.Some? then a.updatedAt else Some(now))
               else if (a.status.Pending? || a.status.Sending? || a.status.Failed?) && a.retryable then
                 b.status.Expired? && !b.retryable && b.cachePath.None? && b.owner.None? && b.claimExpiresAt.Null?
               else b == a.(cachePath := None, updatedAt := Some(now))
  {
    hide Trim;
  }
}
