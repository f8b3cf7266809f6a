// No crash wedges an item. Whatever state a run has come to, a worker that stands
// before an item nobody holds any longer, and that has not failed for good, can
// deliver it alone, in at most seven steps, once the platform takes it.
module DeliveryProgress {
  import opened Prelude
  import opened DeliveryLedger
  import opened DeliveryWorkers
  import opened DeliveryInvariants
  import opened DeliverySteps
  import opened DeliveryTheorems
  import opened DeliveryFailures
  import opened DeliveryDecisions

  // These steps, all of worker `w`, lead from `s` to `t`.
  ghost predicate Leads(c: Catalogue, s: System, taken: seq<Step>, t: System, w: nat)
    decreases |taken|
  {
    if taken == [] then t == s
    else
      && !taken[0].Sweep? && taken[0].w == w && Enabled(c, s, taken[0])
      && Leads(c, Apply(c, s, taken[0]), taken[1..], t, w)
  }

  lemma LeadsOn(c: Catalogue, s: System, step: Step, taken: seq<Step>, t: System, w: nat)
    requires !step.Sweep? && step.w == w && Enabled(c, s, step) && Leads(c, Apply(c, s, step), taken, t, w)
    ensures Leads(c, s, [step] + taken, t, w)
  {
    hide Apply, Enabled;
    assert ([step] + taken)[1..] == taken;
  }

  // The worker stands at item `n` of its plan, which is `id` of the ledger.
  predicate At(c: Catalogue, s: System, w: nat, n: nat, id: ItemId) {
    && w in s.workers && Known(c, s.workers[w]) && HasIndex(s.workers[w].pc)
    && s.workers[w].pc.i == n < |Plan(c, s.workers[w]).items| && IdOf(c, s.workers[w], n) == id
  }

  // The item is delivered and the worker has gone on.
  predicate Finished(s: System, w: nat, n: nat, id: ItemId) {
    && w in s.workers && s.workers[w].pc == Next(n + 1) && Has(s.ledger, id) && Get(s.ledger, id).status.Succeeded?
  }

  lemma Closes(c: Catalogue, s: System, w: nat, n: nat, id: ItemId, now: Tick) returns (taken: seq<Step>, t: System)
    requires Inv(c, s) && At(c, s, w, n, id) && s.clock <= now && Has(s.ledger, id)
    requires s.workers[w].pc.Closing? && s.workers[w].pc.answer.Sent?
    requires Holds(Get(s.ledger, id), s.workers[w].pc.hold.token, now)
    ensures Leads(c, s, taken, t, w) && |taken| == 1 && Finished(t, w, n, id)
  {
    hide Inv, Apply, Holds;
    var step := Step.Close(w, now, None);
    CloseDecides(c, s, step);
    t := Apply(c, s, step);
    StepKeepsWorker(c, s, step);
    LeadsOn(c, s, step, [], t, w);
    taken := [step] + [];
  }

  // A step of a worker leaves its plan and its place in it to be found by `At`.
  lemma StepKeepsWorker(c: Catalogue, s: System, step: Step)
    requires Inv(c, s) && Enabled(c, s, step) && !step.Sweep? && !step.Spawn?
    ensures var t := Apply(c, s, step);
            && Inv(c, t) && step.w in s.workers && step.w in t.workers
            && t.workers[step.w].delivery == s.workers[step.w].delivery
            && t.workers[step.w].fingerprint == s.workers[step.w].fingerprint
            && t.workers[step.w].owner == s.workers[step.w].owner
            && t.clock == (if step.Enter? || step.Call? then s.clock else step.now)
  {
    hide Inv, ApplyPersist, ApplyWalk, ApplyFetch, ApplyClaim, ApplyStore, ApplySettle, ApplyClose, ApplyEnter;
    StepKeeps(c, s, step);
  }

  lemma Settles(c: Catalogue, s: System, w: nat, n: nat, id: ItemId, now: Tick) returns (taken: seq<Step>, t: System)
    requires Inv(c, s) && At(c, s, w, n, id) && s.clock <= now && Has(s.ledger, id)
    requires s.workers[w].pc.Settling? && s.workers[w].pc.answer.Sent?
    requires Holds(Get(s.ledger, id), s.workers[w].pc.hold.token, now)
    ensures Leads(c, s, taken, t, w) && |taken| == 2 && Finished(t, w, n, id)
  {
    hide Inv, Apply;
    var step := Step.Settle(w, now, None);
    SettleDecides(c, s, step);
    StepKeepsWorker(c, s, step);
    HoldStep(c, s, step, w);
    taken, t := Closes(c, Apply(c, s, step), w, n, id, now);
    LeadsOn(c, s, step, taken, t, w);
    taken := [step] + taken;
  }

  lemma Calls(c: Catalogue, s: System, w: nat, n: nat, id: ItemId, now: Tick, r: Response)
    returns (taken: seq<Step>, t: System)
    requires Inv(c, s) && At(c, s, w, n, id) && s.clock <= now && Has(s.ledger, id)
    requires s.workers[w].pc.Calling? && Holds(Get(s.ledger, id), s.workers[w].pc.hold.token, now)
    ensures Leads(c, s, taken, t, w) && |taken| == 3 && Finished(t, w, n, id)
  {
    hide Inv, Holds;
    var step := Step.Call(w, Sent(r));
    StepKeepsWorker(c, s, step);
    taken, t := Settles(c, Apply(c, s, step), w, n, id, now);
    LeadsOn(c, s, step, taken, t, w);
    taken := [step] + taken;
  }

  lemma Enters(c: Catalogue, s: System, w: nat, n: nat, id: ItemId, now: Tick, r: Response)
    returns (taken: seq<Step>, t: System)
    requires Inv(c, s) && At(c, s, w, n, id) && s.clock <= now && Has(s.ledger, id)
    requires s.workers[w].pc.Entering? && Holds(Get(s.ledger, id), s.workers[w].pc.hold.token, now)
    ensures Leads(c, s, taken, t, w) && |taken| == 4 && Finished(t, w, n, id)
  {
    hide Inv, Apply, Holds, OnHand;
    var step := Step.Enter(w, None, NothingToUpload, None);
    EnterDecides(c, s, step);
    StepKeepsWorker(c, s, step);
    taken, t := Calls(c, Apply(c, s, step), w, n, id, now, r);
    LeadsOn(c, s, step, taken, t, w);
    taken := [step] + taken;
  }

  // Nobody holds the item and it may still be delivered, or already is.
  predicate Free(item: Item, now: Tick) {
    !FailedForGood(item) && !InHand(item, now)
  }

  lemma Claims(c: Catalogue, s: System, w: nat, n: nat, id: ItemId, now: Tick, token: string, hasFallback: bool,
               r: Response)
    returns (taken: seq<Step>, t: System)
    requires Inv(c, s) && At(c, s, w, n, id) && s.clock <= now && Fresh(s, token)
    requires s.workers[w].pc.ReadyToClaim? && Has(s.ledger, id) && Free(Get(s.ledger, id), now)
    requires Get(s.ledger, id).native.status.Unsupported? ==> hasFallback
    ensures Leads(c, s, taken, t, w) && |taken| <= 5 && Finished(t, w, n, id)
  {
    hide Inv, Apply;
    var step := Step.Claim(w, now, token, hasFallback, None);
    ClaimDecides(c, s, step);
    StepKeepsWorker(c, s, step);
    t := Apply(c, s, step);
    if Get(s.ledger, id).status.Succeeded? {
      LeadsOn(c, s, step, [], t, w);
      taken := [step] + [];
    } else {
      var more, u := Enters(c, t, w, n, id, now, r);
      LeadsOn(c, s, step, more, u, w);
      taken, t := [step] + more, u;
    }
  }

  // The media of the item are at hand, or nobody is fetching them and it has not
  // been in vain.
  predicate MayBeFetched(item: Item, p: PlanItem, now: Tick) {
    p.materialize ==>
      && item.materialization.Some? && !FetchedInVain(item.materialization.value)
      && !BeingFetched(item.materialization.value, now)
  }

  lemma Fetches(c: Catalogue, s: System, w: nat, n: nat, id: ItemId, now: Tick, token: string, done: MaterialCompletion,
                hasFallback: bool, r: Response)
    returns (taken: seq<Step>, t: System)
    requires Inv(c, s) && At(c, s, w, n, id) && s.clock <= now && Fresh(s, token)
    requires s.workers[w].pc.Fetching? && Has(s.ledger, id) && Get(s.ledger, id).materialization.Some?
    requires var m := Get(s.ledger, id).materialization.value;
             BeingFetched(m, now) && m.claimToken == Some(s.workers[w].pc.token)
    requires done.ready && done.outbound.Some? && done.cachePath == done.outbound.value.path && done.cachePath.Some?
    requires done.retryable && (Get(s.ledger, id).native.status.Unsupported? ==> hasFallback)
    ensures Leads(c, s, taken, t, w) && |taken| <= 6 && Finished(t, w, n, id)
  {
    hide Inv, ApplyFetch, Trimmed;
    var step := Step.Fetch(w, now, done, None);
    FetchDecides(c, s, step);
    StepKeepsWorker(c, s, step);
    FetchUsesNoToken(c, s, step);
    var u := Apply(c, s, step);
    taken, t := Claims(c, u, w, n, id, now, token, hasFallback, r);
    LeadsOn(c, s, step, taken, t, w);
    taken := [step] + taken;
  }

  lemma FetchUsesNoToken(c: Catalogue, s: System, step: Step)
    requires step.Fetch? && Enabled(c, s, step)
    ensures Apply(c, s, step).used == s.used
  {
    hide FinishMaterial;
  }

  lemma WalkUsesOneToken(c: Catalogue, s: System, step: Step)
    requires step.Walk? && Enabled(c, s, step)
    ensures Apply(c, s, step).used <= s.used + {step.token}
  {
    hide ClaimMaterial;
  }

  lemma Walks(c: Catalogue, s: System, w: nat, n: nat, id: ItemId, now: Tick, first: string, second: string,
              done: MaterialCompletion, hasFallback: bool, r: Response)
    returns (taken: seq<Step>, t: System)
    requires Inv(c, s) && At(c, s, w, n, id) && s.clock <= now
    requires Fresh(s, first) && Fresh(s, second) && first != second
    requires s.workers[w].pc.Next? && Has(s.ledger, id) && Free(Get(s.ledger, id), now)
    requires MayBeFetched(Get(s.ledger, id), Plan(c, s.workers[w]).items[n], now)
    requires done.ready && done.outbound.Some? && done.cachePath == done.outbound.value.path && done.cachePath.Some?
    requires done.retryable && (Get(s.ledger, id).native.status.Unsupported? ==> hasFallback)
    ensures Leads(c, s, taken, t, w) && |taken| <= 7 && Finished(t, w, n, id)
  {
    hide Inv, ApplyWalk, Trimmed;
    var step := Step.Walk(w, now, first, None);
    WalkDecides(c, s, step);
    StepKeepsWorker(c, s, step);
    WalkUsesOneToken(c, s, step);
    var u := Apply(c, s, step);
    if u.workers[w].pc.Fetching? {
      taken, t := Fetches(c, u, w, n, id, now, second, done, hasFallback, r);
    } else {
      taken, t := Claims(c, u, w, n, id, now, second, hasFallback, r);
    }
    LeadsOn(c, s, step, taken, t, w);
    taken := [step] + taken;
  }

  // After any run, crashes and overruns included: an item that nobody holds at
  // `now` and that has not failed for good is delivered by any worker that stands
  // before it, alone, if its media can be fetched and the platform takes it, in
  // another form where it is known not to take the native one.
  lemma NothingIsWedged(c: Catalogue, states: seq<System>, steps: seq<Step>, i: nat, w: nat, n: nat, id: ItemId,
                        now: Tick, first: string, second: string, done: MaterialCompletion, hasFallback: bool,
                        r: Response)
    requires WellFormed(c) && IsRun(c, states, steps) && i < |states|
    requires At(c, states[i], w, n, id) && states[i].workers[w].pc.Next? && states[i].clock <= now
    requires Fresh(states[i], first) && Fresh(states[i], second) && first != second
    requires Has(states[i].ledger, id) && Free(Get(states[i].ledger, id), now)
    requires MayBeFetched(Get(states[i].ledger, id), Plan(c, states[i].workers[w]).items[n], now)
    requires done.ready && done.outbound.Some? && done.cachePath == done.outbound.value.path && done.cachePath.Some?
    requires done.retryable
    requires Get(states[i].ledger, id).native.status.Unsupported? ==> hasFallback
    ensures exists taken, t :: Leads(c, states[i], taken, t, w) && |taken| <= 7 && Finished(t, w, n, id)
  {
    hide Inv, Apply, Enabled, Leads;
    RunKeeps(c, states, steps, i);
    var taken, t := Walks(c, states[i], w, n, id, now, first, second, done, hasFallback, r);
  }
}
