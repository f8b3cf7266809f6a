// Every step of every worker keeps the invariant and moves each item only
// along `ItemStep`.
module DeliverySteps {
  import opened Prelude
  import opened DeliveryLedger
  import opened DeliveryWorkers
  import opened DeliveryInvariants

  // The token whose holder performs the step, when it is a holder's step.
  function ActorOf(s: System, step: Step): Option<string> {
    if (step.Store? || step.Settle? || step.Close?) && step.w in s.workers && Holding(s.workers[step.w].pc)
    then Some(s.workers[step.w].pc.hold.token)
    else None
  }

  // ------------------------------------------------------- one worker's step

  // The worker stands at item `i` of its plan.
  predicate StandsAt(c: Catalogue, s: System, w: nat, i: nat) {
    && w in s.workers
    && Known(c, s.workers[w])
    && HasIndex(s.workers[w].pc) && s.workers[w].pc.i == i
    && i < |Plan(c, s.workers[w]).items|
  }

  // Where a worker may go from item `i`, given what that item has become.
  predicate MayGo(item: Item, id: ItemId, used: set<string>, past: History, i: nat, pc: Pc) {
    || pc.Stopped?
    || (pc.Next? && pc.i == i + 1 && item.status.Succeeded?)
    || (HasIndex(pc) && !pc.Next? && pc.i == i && AtItemOk(item, id, used, past, pc))
  }

  predicate KeepsToken(before: Pc, after: Pc) {
    Holding(after) ==> Holding(before) && before.hold.token == after.hold.token
  }

  lemma MovedPc(c: Catalogue, s: System, t: System, w: nat, i: nat, pc: Pc, actor: Option<string>)
    requires StandsAt(c, s, w, i) && Reached(s, s.workers[w], Plan(c, s.workers[w]), i)
    requires var id := IdOf(c, s.workers[w], i);
             Has(t.ledger, id) && MayGo(Get(t.ledger, id), id, t.used, t.past, i, pc)
    requires Rely(s, t, actor)
    ensures PcOk(c, t, s.workers[w].(pc := pc))
  {
    ReachedStays(s, t, actor, s.workers[w], Plan(c, s.workers[w]), i);
  }

  lemma WriteKeeps(c: Catalogue, s: System, t: System, w: nat, i: nat, pc: Pc, item: Item, actor: Option<string>)
    requires Inv(c, s) && StandsAt(c, s, w, i)
    requires Has(s.ledger, IdOf(c, s.workers[w], i))
    requires s.clock <= t.clock && s.used <= t.used
    requires t.workers == s.workers[w := s.workers[w].(pc := pc)]
    requires t.ledger == Put(s.ledger, IdOf(c, s.workers[w], i), item)
    requires PastElsewhere(s.past, t.past, IdOf(c, s.workers[w], i))
    requires ItemMove(Get(s.ledger, IdOf(c, s.workers[w], i)), item, IdOf(c, s.workers[w], i), s.used, t.used, s.past,
                      t.past, actor)
    requires ItemOk(item, IdOf(c, s.workers[w], i), LeaseOf(c, s.ledger, s.workers[w].delivery), t.clock, t.used,
                    t.past)
    requires MayGo(item, IdOf(c, s.workers[w], i), t.used, t.past, i, pc)
    requires actor.Some? ==> Holding(s.workers[w].pc) && actor == Some(s.workers[w].pc.hold.token)
    requires KeepsToken(s.workers[w].pc, pc) || (Holding(pc) && pc.hold.token !in s.used)
    ensures Rely(s, t, actor) && Inv(c, t)
  {
    hide ItemOk, ItemMove, PastElsewhere, AtItemOk, RecordsOk, PastOk, InOrder, DoneBefore;
    var me := s.workers[w];
    var id := IdOf(c, me, i);
    assert PcOk(c, s, me);
    assert Reached(s, me, Plan(c, me), i);
    assert ItemStep(s, t, id, actor);
    OneItemStep(c, s, t, id, item, actor);
    MovedPc(c, s, t, w, i, pc, actor);
    WorkersStay(c, s, t, actor, w);
  }

  lemma QuietKeeps(c: Catalogue, s: System, t: System, w: nat, i: nat, pc: Pc)
    requires Inv(c, s) && StandsAt(c, s, w, i)
    requires Has(s.ledger, IdOf(c, s.workers[w], i))
    requires t == s.(clock := t.clock, workers := s.workers[w := s.workers[w].(pc := pc)]) && s.clock <= t.clock
    requires MayGo(Get(s.ledger, IdOf(c, s.workers[w], i)), IdOf(c, s.workers[w], i), s.used, s.past, i, pc)
    requires KeepsToken(s.workers[w].pc, pc)
    ensures Rely(s, t, None) && Inv(c, t)
  {
    QuietStep(c, s, t);
    assert PcOk(c, s, s.workers[w]);
    MovedPc(c, s, t, w, i, pc, None);
    WorkersStay(c, s, t, None, w);
  }

  // A worker gives up, or has reached the end of its plan.
  lemma StopKeeps(c: Catalogue, s: System, t: System, w: nat)
    requires Inv(c, s) && w in s.workers && s.clock <= t.clock
    requires t == s.(clock := t.clock, workers := s.workers[w := s.workers[w].(pc := Stopped)])
    ensures Rely(s, t, None) && Inv(c, t)
  {
    QuietStep(c, s, t);
    WorkersStay(c, s, t, None, w);
  }

  // A step that writes no send field is one any holder could have taken.
  lemma QuietIsAnyones(s: System, t: System, actor: Option<string>)
    requires Rely(s, t, None)
    ensures Rely(s, t, actor)
  {
    forall id | Has(s.ledger, id)
      ensures ItemStep(s, t, id, actor)
    {
      assert ItemStep(s, t, id, None);
    }
  }

  // What the invariant says where a worker stands.
  lemma Standing(c: Catalogue, s: System, w: nat, i: nat)
    requires Inv(c, s) && StandsAt(c, s, w, i)
    ensures var me := s.workers[w];
            var id := IdOf(c, me, i);
            && Has(s.ledger, id)
            && me.delivery in s.ledger && s.ledger[me.delivery].fingerprint == me.fingerprint
            && ItemOk(Get(s.ledger, id), id, LeaseOf(c, s.ledger, me.delivery), s.clock, s.used, s.past)
            && LeaseOf(c, s.ledger, me.delivery) == Max(Plan(c, me).leaseSeconds, 1) * SECOND
            && ItemMatches(Plan(c, me).items[i], Get(s.ledger, id), me.fingerprint)
            && (me.pc.Next? || AtItemOk(Get(s.ledger, id), id, s.used, s.past, me.pc))
  {
    var me := s.workers[w];
    assert PcOk(c, s, me);
    assert Reached(s, me, Plan(c, me), i);
    assert Has(s.ledger, ItemId(me.delivery, Plan(c, me).items[i].key));
    assert RecordMatches(Plan(c, me), s.ledger[me.delivery]);
  }

  // ------------------------------------------------------------ no ledger write

  lemma EnterKeeps(c: Catalogue, s: System, w: nat, allowed: Option<Failure>, prepare: PrepareAnswer,
                   stillAllowed: Option<Failure>)
    requires Inv(c, s) && AtItem(c, s, w) && s.workers[w].pc.Entering?
    ensures var t := ApplyEnter(c, s, w, allowed, prepare, stillAllowed);
            Rely(s, t, None) && Inv(c, t)
  {
    hide Inv, Rely, ItemOk, ItemMove;
    var pc := s.workers[w].pc;
    Standing(c, s, w, pc.i);
    QuietKeeps(c, s, ApplyEnter(c, s, w, allowed, prepare, stillAllowed), w, pc.i,
               EnterPc(pc.i, pc.hold, pc.stage, allowed, prepare, stillAllowed));
  }

  lemma CallKeeps(c: Catalogue, s: System, w: nat, answer: Answer)
    requires Inv(c, s) && AtItem(c, s, w) && s.workers[w].pc.Calling?
    ensures var pc := s.workers[w].pc;
            var t := Goto(s, w, Settling(pc.i, pc.hold, pc.stage, pc.prepared, answer));
            Rely(s, t, None) && Inv(c, t)
  {
    var pc := s.workers[w].pc;
    Standing(c, s, w, pc.i);
    var after := Settling(pc.i, pc.hold, pc.stage, pc.prepared, answer);
    QuietKeeps(c, s, Goto(s, w, after), w, pc.i, after);
  }

  lemma SpawnKeeps(c: Catalogue, s: System, w: nat, delivery: string, fingerprint: string, owner: string)
    requires Inv(c, s) && w !in s.workers && (delivery, fingerprint) in c
    ensures var t := s.(workers := s.workers[w := Worker(delivery, fingerprint, owner, Idle)]);
            Rely(s, t, None) && Inv(c, t)
  {
    var t := s.(workers := s.workers[w := Worker(delivery, fingerprint, owner, Idle)]);
    QuietStep(c, s, t);
    WorkersStay(c, s, t, None, w);
  }

  // ------------------------------------------------------------------ the plan

  // Planning items that are all absent adds each of them, once, in fresh form.
  lemma {:induction false} FreshPlan(items: map<string, Item>, fingerprint: string, plan: seq<PlanItem>, now: Tick)
    requires DistinctKeys(plan)
    requires forall i :: 0 <= i < |plan| ==> plan[i].key !in items
    ensures PlanItems(items, fingerprint, plan, now).Ok?
    ensures var r := PlanItems(items, fingerprint, plan, now).value;
            && (forall k :: k in r ==> k in items || exists i :: 0 <= i < |plan| && plan[i].key == k)
            && (forall k :: k in items ==> k in r && r[k] == items[k])
            && (forall i :: 0 <= i < |plan| ==>
                              plan[i].key in r && r[plan[i].key] == FreshItem(plan[i], fingerprint, now))
    decreases |plan|
  {
    if plan != [] {
      var p := plan[0];
      var more := items[p.key := FreshItem(p, fingerprint, now)];
      assert PlannedItem(items, fingerprint, p, now) == FreshItem(p, fingerprint, now);
      FreshPlan(more, fingerprint, plan[1..], now);
      var r := PlanItems(more, fingerprint, plan[1..], now).value;
      assert PlanItems(items, fingerprint, plan, now) == Ok(r);
      forall i | 0 <= i < |plan|
        ensures plan[i].key in r && r[plan[i].key] == FreshItem(plan[i], fingerprint, now)
      {
        if i > 0 {
          assert plan[1..][i - 1] == plan[i];
        } else {
          assert p.key in more;
        }
      }
    }
  }

  function FreshItem(p: PlanItem, fingerprint: string, now: Tick): Item {
    NewItem(fingerprint, p.artifactId, p.kind, None, now).(
    planned := Some(p.outbound), materialization := Some(FreshMaterialization(p, now)))
  }

  // Planning again what is already on record changes nothing.
  lemma {:induction false} PlanAgain(items: map<string, Item>, fingerprint: string, plan: seq<PlanItem>, now: Tick)
    requires forall i :: 0 <= i < |plan| ==> plan[i].key in items
                                             && ItemMatches(plan[i], items[plan[i].key], fingerprint)
    ensures PlanItems(items, fingerprint, plan, now) == Ok(items)
    decreases |plan|
  {
    if plan != [] {
      assert ItemMatches(plan[0], items[plan[0].key], fingerprint);
      assert PlannedItem(items, fingerprint, plan[0], now) == items[plan[0].key];
      assert items[plan[0].key := items[plan[0].key]] == items;
      PlanAgain(items, fingerprint, plan[1..], now);
    }
  }

  // A delivery not on record yet is recorded whole.
  lemma PersistNew(l: Ledger, delivery: string, fingerprint: string, plan: Delivery, now: Tick)
    requires delivery !in l && DistinctKeys(plan.items)
    ensures var (after, r) := PersistPlan(l, delivery, fingerprint, plan.outbound, plan.items, now);
            && r.Ok? && delivery in after && after == l[delivery := after[delivery]]
            && NewRecord(plan, after[delivery], fingerprint, now)
  {
    hide FreshItem, PlanItems;
    FreshPlan(map[], fingerprint, plan.items, now);
  }

  // One on record with the same fingerprint is found there.
  lemma PersistKnown(l: Ledger, delivery: string, fingerprint: string, plan: Delivery, now: Tick)
    requires delivery in l && l[delivery].fingerprint == fingerprint && RecordMatches(plan, l[delivery])
    ensures var (after, r) := PersistPlan(l, delivery, fingerprint, plan.outbound, plan.items, now);
            r.Ok? && after == l
  {
    hide PlanItems, ItemMatches;
    var r := l[delivery];
    PlanAgain(r.items, fingerprint, plan.items, now);
    assert l[delivery := r] == l;
  }

  // Persisting a catalogued plan either records it whole, finds it on record,
  // or reports a conflict.
  lemma PersistEffect(c: Catalogue, s: System, me: Worker, now: Tick)
    requires WellFormed(c) && RecordsOk(c, s.ledger) && Known(c, me)
    ensures var plan := Plan(c, me);
            var (l, r) := PersistPlan(s.ledger, me.delivery, me.fingerprint, plan.outbound, plan.items, now);
            if me.delivery !in s.ledger then
              r.Ok? && me.delivery in l && l == s.ledger[me.delivery := l[me.delivery]]
              && NewRecord(plan, l[me.delivery], me.fingerprint, now)
            else
              l == s.ledger && (r.Ok? <==> s.ledger[me.delivery].fingerprint == me.fingerprint)
  {
    hide NewRecord, PlanItems, RecordMatches, DistinctKeys;
    var plan := Plan(c, me);
    if me.delivery !in s.ledger {
      PersistNew(s.ledger, me.delivery, me.fingerprint, plan, now);
    } else if s.ledger[me.delivery].fingerprint == me.fingerprint {
      PersistKnown(s.ledger, me.delivery, me.fingerprint, plan, now);
    }
  }

  predicate NewRecord(d: Delivery, r: Record, fingerprint: string, now: Tick) {
    && r.fingerprint == fingerprint
    && r.planned == Some(d.outbound)
    && (forall k :: k in r.items ==> exists i :: 0 <= i < |d.items| && d.items[i].key == k
                                                 && r.items[k] == FreshItem(d.items[i], fingerprint, now))
    && forall i :: 0 <= i < |d.items| ==> d.items[i].key in r.items
                                          && r.items[d.items[i].key] == FreshItem(d.items[i], fingerprint, now)
  }

  // What a freshly planned item satisfies, and all of its record.
  lemma NewItemsOk(d: Delivery, r: Record, fingerprint: string, now: Tick, delivery: string, lease: nat, clock: Tick,
                   used: set<string>, past: History)
    requires NewRecord(d, r, fingerprint, now)
    requires forall k :: k in r.items ==> Unseen(past, ItemId(delivery, k))
    ensures RecordMatches(d, r)
    ensures forall k :: k in r.items ==> ItemOk(r.items[k], ItemId(delivery, k), lease, clock, used, past)
  {
    hide Unseen;
    forall k | k in r.items
      ensures ItemOk(r.items[k], ItemId(delivery, k), lease, clock, used, past)
    {
      var i :| 0 <= i < |d.items| && d.items[i].key == k && r.items[k] == FreshItem(d.items[i], fingerprint, now);
      FreshItemOk(d.items[i], fingerprint, now, ItemId(delivery, k), lease, clock, used, past);
    }
  }

  // The history has nothing to say about the item yet.
  predicate Unseen(past: History, id: ItemId) {
    id !in past.claimed && (id, Native) !in past.uploads && (id, Fallback) !in past.uploads
    && id !in past.blankAnswers && id !in past.fallbackMedia && id !in past.expired
  }

  lemma FreshItemOk(p: PlanItem, fingerprint: string, now: Tick, id: ItemId, lease: nat, clock: Tick, used: set<string>,
                    past: History)
    requires Unseen(past, id)
    ensures ItemOk(FreshItem(p, fingerprint, now), id, lease, clock, used, past)
  {
  }

  lemma NewRecordKeeps(c: Catalogue, s: System, t: System, me: Worker, now: Tick)
    requires WellFormed(c) && LedgerOk(c, s) && Known(c, me)
    requires me.delivery !in s.ledger && me.delivery in t.ledger
    requires t.ledger == s.ledger[me.delivery := t.ledger[me.delivery]]
    requires NewRecord(Plan(c, me), t.ledger[me.delivery], me.fingerprint, now)
    requires t.past == s.past && t.used == s.used && s.clock <= t.clock
    ensures Rely(s, t, None) && LedgerOk(c, t)
  {
    hide ItemOk, ItemMove, NewRecord, DoneBefore, Unseen, RecordMatches;
    var r := t.ledger[me.delivery];
    NewRecordIsKnown(c, me, t, now);
    forall k | k in r.items
      ensures Unseen(s.past, ItemId(me.delivery, k))
    {
      assert !Has(s.ledger, ItemId(me.delivery, k));
      NeverSeen(s, ItemId(me.delivery, k));
    }
    NewItemsOk(Plan(c, me), r, me.fingerprint, now, me.delivery, LeaseOf(c, t.ledger, me.delivery), t.clock, t.used,
               t.past);
    forall id | Has(s.ledger, id)
      ensures Has(t.ledger, id) && ItemStep(s, t, id, None)
      ensures ItemOk(Get(t.ledger, id), id, LeaseOf(c, t.ledger, id.delivery), t.clock, t.used, t.past)
    {
      assert Get(t.ledger, id) == Get(s.ledger, id);
      StillOk(Get(s.ledger, id), id, LeaseOf(c, s.ledger, id.delivery), s.clock, t.clock, s.used, s.past);
    }
    NewRecordOrder(c, s, t, me.delivery);
  }

  lemma NeverSeen(s: System, id: ItemId)
    requires PastOk(s) && !Has(s.ledger, id)
    ensures Unseen(s.past, id)
  {
  }

  lemma StillOk(item: Item, id: ItemId, lease: nat, clock: Tick, later: Tick, used: set<string>, past: History)
    requires ItemOk(item, id, lease, clock, used, past) && clock <= later
    ensures ItemOk(item, id, lease, later, used, past) && ItemMove(item, item, id, used, used, past, past, None)
  {
    hide UploadsOk;
  }

  lemma NewRecordOrder(c: Catalogue, s: System, t: System, delivery: string)
    requires InOrder(c, s) && PastOk(s) && t.past == s.past
    requires delivery !in s.ledger && delivery in t.ledger && t.ledger == s.ledger[delivery := t.ledger[delivery]]
    ensures InOrder(c, t) && PastOk(t)
  {
    forall d, n | d in t.ledger && (d, t.ledger[d].fingerprint) in c
                  && 0 <= n < |c[(d, t.ledger[d].fingerprint)].items|
                  && ItemId(d, c[(d, t.ledger[d].fingerprint)].items[n].key) in t.past.claimed
      ensures DoneBefore(t.ledger, d, c[(d, t.ledger[d].fingerprint)].items, n)
    {
      assert Has(s.ledger, ItemId(d, c[(d, t.ledger[d].fingerprint)].items[n].key));
      assert DoneBefore(s.ledger, d, c[(d, t.ledger[d].fingerprint)].items, n);
    }
  }

  // A worker whose plan is on record may start at its first item.
  lemma StartsAtFirst(c: Catalogue, t: System, me: Worker)
    requires RecordsOk(c, t.ledger) && Known(c, me) && me.delivery in t.ledger
    requires t.ledger[me.delivery].fingerprint == me.fingerprint
    ensures Reached(t, me, Plan(c, me), 0)
  {
    assert RecordMatches(Plan(c, me), t.ledger[me.delivery]);
  }

  lemma PersistKeeps(c: Catalogue, s: System, w: nat, now: Tick, io: Option<string>)
    requires Inv(c, s) && w in s.workers && Known(c, s.workers[w]) && s.clock <= now
    ensures var t := ApplyPersist(c, s, w, now, io);
            Rely(s, t, None) && Inv(c, t)
  {
    hide ItemOk, RecordsOk, PastOk, InOrder, Rely, AtItemOk, Reached, PersistPlan, NewRecord;
    var t := ApplyPersist(c, s, w, now, io);
    var me := s.workers[w];
    PersistEffect(c, s, me, now);
    if t.ledger == s.ledger {
      QuietStep(c, s, t);
    } else {
      NewRecordIsKnown(c, me, t, now);
      NewRecordKeeps(c, s, t, me, now);
    }
    if t.workers[w].pc.Next? {
      StartsAtFirst(c, t, t.workers[w]);
    }
    WorkersStay(c, s, t, None, w);
  }

  lemma NewRecordIsKnown(c: Catalogue, me: Worker, t: System, now: Tick)
    requires Known(c, me) && me.delivery in t.ledger
    requires NewRecord(Plan(c, me), t.ledger[me.delivery], me.fingerprint, now)
    ensures t.ledger[me.delivery].fingerprint == me.fingerprint
  {
  }

  // ----------------------------------------------------------- materialization

  lemma GrantMaterialMoves(item: Item, id: ItemId, p: PlanItem, lease: nat, clock: Tick, used: set<string>,
                           past: History, owner: string, seconds: nat, token: string, now: Tick)
    requires ItemOk(item, id, lease, clock, used, past) && clock <= now && token !in used && token != ""
    requires MaterialAnswer(item, owner, seconds, token, now).MaterialClaimed?
    ensures var b := MaterialAnswer(item, owner, seconds, token, now).item;
            ItemOk(b, id, lease, now, used + {token}, past)
            && ItemMove(item, b, id, used, used + {token}, past, past, None)
  {
  }

  lemma WalkKeeps(c: Catalogue, s: System, w: nat, now: Tick, token: string, io: Option<string>)
    requires Inv(c, s) && w in s.workers && Known(c, s.workers[w])
    requires s.workers[w].pc.Next? && s.workers[w].pc.i <= |Plan(c, s.workers[w]).items|
    requires s.clock <= now && Fresh(s, token)
    ensures var t := ApplyWalk(c, s, w, now, token, io);
            Rely(s, t, None) && Inv(c, t)
  {
    hide Inv, Rely, ItemMove;
    var t := ApplyWalk(c, s, w, now, token, io);
    var me := s.workers[w];
    var plan := Plan(c, me);
    var i := me.pc.i;
    if i == |plan.items| {
      StopKeeps(c, s, t, w);
    } else {
      Standing(c, s, w, i);
      var id := IdOf(c, me, i);
      var item := Get(s.ledger, id);
      var reply := MaterialAnswer(item, me.owner, plan.leaseSeconds, token, now);
      if plan.items[i].materialize && io.None? && reply.MaterialClaimed? {
        GrantMaterialMoves(item, id, plan.items[i], LeaseOf(c, s.ledger, me.delivery), s.clock, s.used, s.past,
                           me.owner, plan.leaseSeconds, token, now);
        WriteKeeps(c, s, t, w, i, Fetching(i, token), reply.item, None);
      } else {
        QuietKeeps(c, s, t, w, i, t.workers[w].pc);
      }
    }
  }

  lemma SettleMaterialMoves(item: Item, id: ItemId, lease: nat, clock: Tick, used: set<string>, past: History,
                            token: string, done: MaterialCompletion, now: Tick)
    requires ItemOk(item, id, lease, clock, used, past) && clock <= now
    requires ActiveNestedClaim(item.materialization.value, token, now)
    requires done.ready ==> done.retryable && done.outbound.Some?
    ensures var b := SettleMaterial(item, done, now);
            && ItemOk(b, id, lease, now, used, past)
            && ItemMove(item, b, id, used, used, past, past, None)
            && (done.ready ==> Stable(b))
  {
  }

  lemma FetchKeeps(c: Catalogue, s: System, w: nat, now: Tick, done: MaterialCompletion, io: Option<string>)
    requires Inv(c, s) && AtItem(c, s, w) && s.workers[w].pc.Fetching? && s.clock <= now
    requires done.ready ==> done.retryable && done.outbound.Some?
    ensures var t := ApplyFetch(c, s, w, now, done, io);
            Rely(s, t, None) && Inv(c, t)
  {
    hide Inv, Rely, ItemOk, ItemMove;
    var t := ApplyFetch(c, s, w, now, done, io);
    var me := s.workers[w];
    var i := me.pc.i;
    Standing(c, s, w, i);
    var id := IdOf(c, me, i);
    var item := Get(s.ledger, id);
    if io.None? && ActiveNestedClaim(item.materialization.value, me.pc.token, now) {
      SettleMaterialMoves(item, id, LeaseOf(c, s.ledger, me.delivery), s.clock, s.used, s.past, me.pc.token, done, now);
      WriteKeeps(c, s, t, w, i, t.workers[w].pc, SettleMaterial(item, done, now), None);
    } else {
      QuietKeeps(c, s, t, w, i, Stopped);
    }
  }

  // ------------------------------------------------------------- the send claim

  lemma GrantMoves(item: Item, id: ItemId, r: ClaimRequest, clock: Tick, used: set<string>, past: History,
                   token: string, now: Tick)
    requires ItemOk(item, id, Max(r.leaseSeconds, 1) * SECOND, clock, used, past) && clock <= now
    requires token != "" && token !in used && Stable(item) && item.fingerprint == Some(r.fingerprint)
    requires ClaimAnswer(item, r, token, now).Claimed?
    ensures var b := ClaimAnswer(item, r, token, now).item;
            var after := past.(claimed := past.claimed + {id});
            && ItemOk(b, id, Max(r.leaseSeconds, 1) * SECOND, now, used + {token}, after)
            && ItemMove(item, b, id, used, used + {token}, past, after, None)
            && UploadsOk(b, id, past) && Stable(b) && b.claimToken == Some(token)
            && (b.fallback != FRESH_STAGE ==> b.native.status.Unsupported?)
  {
    assert item.(fingerprint := Some(r.fingerprint)) == item;
  }

  lemma GrantedPc(item: Item, id: ItemId, i: nat, token: string, used: set<string>, past: History, hasFallback: bool)
    requires UploadsOk(item, id, past) && Stable(item) && item.claimToken == Some(token) && token in used
    requires item.fallback != FRESH_STAGE ==> item.native.status.Unsupported?
    ensures var pc := AfterGrant(i, HoldOn(past, id, token, item, hasFallback));
            && MayGo(item, id, used, past.(claimed := past.claimed + {id}), i, pc)
            && Holding(pc) && pc.hold.token == token
  {
    hide Trimmed, Trim;
  }

  lemma ClaimIsPut(l: Ledger, r: ClaimRequest, token: string, now: Tick)
    requires var id := ItemId(r.delivery, r.item);
             Has(l, id) && l[r.delivery].fingerprint == r.fingerprint && ClaimAnswer(Get(l, id), r, token, now).Claimed?
    ensures var id := ItemId(r.delivery, r.item);
            var reply := ClaimAnswer(Get(l, id), r, token, now);
            ClaimItem(l, r, token, now) == (Put(l, id, reply.item), reply)
  {
  }

  lemma GrantKeeps(c: Catalogue, s: System, w: nat, now: Tick, token: string, hasFallback: bool)
    requires Inv(c, s) && AtItem(c, s, w) && s.workers[w].pc.ReadyToClaim? && s.clock <= now && Fresh(s, token)
    requires Has(s.ledger, IdOf(c, s.workers[w], s.workers[w].pc.i))
    requires ClaimAnswer(Get(s.ledger, IdOf(c, s.workers[w], s.workers[w].pc.i)), RequestOf(c, s.workers[w]), token,
                         now).Claimed?
    ensures var t := ApplyClaim(c, s, w, now, token, hasFallback, None);
            Rely(s, t, None) && Inv(c, t)
  {
    hide Inv, Rely, ItemOk, ItemMove, UploadsOk, MayGo, ClaimItem, ClaimAnswer, AfterGrant, HoldOn;
    var t := ApplyClaim(c, s, w, now, token, hasFallback, None);
    var me := s.workers[w];
    var i := me.pc.i;
    Standing(c, s, w, i);
    var id := IdOf(c, me, i);
    var item := Get(s.ledger, id);
    var r := RequestOf(c, me);
    var reply := ClaimAnswer(item, r, token, now);
    ClaimIsPut(s.ledger, r, token, now);
    GrantMoves(item, id, r, s.clock, s.used, s.past, token, now);
    GrantedPc(reply.item, id, i, token, t.used, s.past, hasFallback);
    WriteKeeps(c, s, t, w, i, AfterGrant(i, HoldOn(s.past, id, token, reply.item, hasFallback)), reply.item, None);
  }

  lemma ClaimKeeps(c: Catalogue, s: System, w: nat, now: Tick, token: string, hasFallback: bool, io: Option<string>)
    requires Inv(c, s) && AtItem(c, s, w) && s.workers[w].pc.ReadyToClaim? && s.clock <= now && Fresh(s, token)
    ensures var t := ApplyClaim(c, s, w, now, token, hasFallback, io);
            Rely(s, t, None) && Inv(c, t)
  {
    hide Inv, Rely, ItemOk, ItemMove;
    var me := s.workers[w];
    Standing(c, s, w, me.pc.i);
    var item := Get(s.ledger, IdOf(c, me, me.pc.i));
    if io.None? && ClaimAnswer(item, RequestOf(c, me), token, now).Claimed? {
      GrantKeeps(c, s, w, now, token, hasFallback);
    } else {
      assert item.(fingerprint := Some(me.fingerprint)) == item;
      var t := ApplyClaim(c, s, w, now, token, hasFallback, io);
      QuietKeeps(c, s, t, w, me.pc.i, t.workers[w].pc);
    }
  }

  // ------------------------------------------------------ writes by the holder

  lemma StoreMoves(item: Item, id: ItemId, lease: nat, clock: Tick, used: set<string>, past: History, h: Hold,
                   name: StageName, u: Upload, now: Tick)
    requires ItemOk(item, id, lease, clock, used, past) && clock <= now
    requires HoldOk(item, id, used, past, h) && StageOk(item, h, name) && Latest(item, h) && item.status.Sending?
    requires !Reusable(past, id, name)
    ensures var b := StoreUpload(item, name, u, now);
            var after := NoteUpload(past, id, name, u);
            var held := h.(view := StoreUpload(h.view, name, u, now));
            && ItemOk(b, id, lease, now, used, after)
            && ItemMove(item, b, id, used, used, past, after, Some(h.token)) && PastElsewhere(past, after, id)
            && HoldOk(b, id, used, after, held) && StageOk(b, held, name)
            && MediaOk(b, id, after, held, name, Some(u))
  {
  }

  lemma StoreKeeps(c: Catalogue, s: System, w: nat, now: Tick, stillAllowed: Option<Failure>, io: Option<string>)
    requires Inv(c, s) && AtItem(c, s, w) && s.workers[w].pc.Uploading? && s.clock <= now
    ensures var t := ApplyStore(c, s, w, now, stillAllowed, io);
            Rely(s, t, Some(s.workers[w].pc.hold.token)) && Inv(c, t)
  {
    hide Inv, Rely, ItemOk, ItemMove, StoreUpload, NoteUpload, PastElsewhere, HoldOk, ClaimFault,
         LeaseShape, SendFields;
    var t := ApplyStore(c, s, w, now, stillAllowed, io);
    var me := s.workers[w];
    var pc := me.pc;
    Standing(c, s, w, pc.i);
    var id := IdOf(c, me, pc.i);
    var item := Get(s.ledger, id);
    if io.None? && ActiveClaim(item, pc.hold.token, now) {
      StoreMoves(item, id, LeaseOf(c, s.ledger, me.delivery), s.clock, s.used, s.past, pc.hold, pc.stage, pc.upload,
                 now);
      WriteKeeps(c, s, t, w, pc.i, t.workers[w].pc, StoreUpload(item, pc.stage, pc.upload, now),
                 Some(pc.hold.token));
    } else {
      QuietKeeps(c, s, t, w, pc.i, t.workers[w].pc);
      QuietIsAnyones(s, t, Some(pc.hold.token));
    }
  }

  // Settling a stage is the holder's own move on the item.
  lemma SettleMoves(item: Item, id: ItemId, lease: nat, clock: Tick, used: set<string>, past: History, h: Hold,
                    name: StageName, prepared: Option<Upload>, answer: Answer, now: Tick)
    requires ItemOk(item, id, lease, clock, used, past) && clock <= now
    requires HoldOk(item, id, used, past, h) && StageOk(item, h, name) && Latest(item, h) && item.status.Sending?
    requires MediaOk(item, id, past, h, name, prepared)
    ensures var b := SettleStage(item, name, StageOutcome(answer, prepared));
            var after := NoteAnswer(past, id, name, answer);
            && ItemOk(b, id, lease, now, used, after)
            && ItemMove(item, b, id, used, used, past, after, Some(h.token)) && PastElsewhere(past, after, id)
  {
    hide Trim;
  }

  // And leaves the holder knowing what it wrote.
  lemma SettleHolds(item: Item, id: ItemId, lease: nat, clock: Tick, used: set<string>, past: History, h: Hold,
                    name: StageName, prepared: Option<Upload>, answer: Answer)
    requires ItemOk(item, id, lease, clock, used, past)
    requires HoldOk(item, id, used, past, h) && StageOk(item, h, name) && Latest(item, h)
    requires MediaOk(item, id, past, h, name, prepared)
    ensures var b := SettleStage(item, name, StageOutcome(answer, prepared));
            var after := NoteAnswer(past, id, name, answer);
            var held := h.(view := SettleStage(h.view, name, StageOutcome(answer, prepared)));
            && HoldOk(b, id, used, after, held)
            && ClosingOk(b, id, after, held, prepared, name.Fallback?)
            && (name.Native? && answer.NotSent? && ShouldFallBack(answer.failure) ==>
                  StageOk(b, held, Fallback) && !Reusable(after, id, Fallback))
  {
    hide Trim;
  }

  lemma SettleKeeps(c: Catalogue, s: System, w: nat, now: Tick, io: Option<string>)
    requires Inv(c, s) && AtItem(c, s, w) && s.workers[w].pc.Settling? && s.clock <= now
    ensures var t := ApplySettle(c, s, w, now, io);
            Rely(s, t, Some(s.workers[w].pc.hold.token)) && Inv(c, t)
  {
    hide Inv, Rely, ItemOk, ItemMove, SettleStage, StageOutcome, NoteAnswer, PastElsewhere, HoldOk;
    var t := ApplySettle(c, s, w, now, io);
    var me := s.workers[w];
    var pc := me.pc;
    Standing(c, s, w, pc.i);
    var id := IdOf(c, me, pc.i);
    var item := Get(s.ledger, id);
    if io.None? && ActiveClaim(item, pc.hold.token, now) {
      SettleMoves(item, id, LeaseOf(c, s.ledger, me.delivery), s.clock, s.used, s.past, pc.hold, pc.stage, pc.prepared,
                  pc.answer, now);
      SettleHolds(item, id, LeaseOf(c, s.ledger, me.delivery), s.clock, s.used, s.past, pc.hold, pc.stage, pc.prepared,
                  pc.answer);
      WriteKeeps(c, s, t, w, pc.i, t.workers[w].pc,
                 SettleStage(item, pc.stage, StageOutcome(pc.answer, pc.prepared)), Some(pc.hold.token));
    } else {
      QuietKeeps(c, s, t, w, pc.i, t.workers[w].pc);
      QuietIsAnyones(s, t, Some(pc.hold.token));
    }
  }

  lemma CloseMoves(item: Item, id: ItemId, lease: nat, clock: Tick, used: set<string>, past: History, h: Hold,
                   prepared: Option<Upload>, answer: Answer, fallbackUsed: bool, now: Tick)
    requires ItemOk(item, id, lease, clock, used, past) && clock <= now
    requires HoldOk(item, id, used, past, h) && ClosingOk(item, id, past, h, prepared, fallbackUsed)
    requires Latest(item, h) && item.status.Sending?
    ensures var b := SettleItem(item, ItemOutcome(answer, prepared, fallbackUsed), now);
            var after := if fallbackUsed then past.(fallbackMedia := past.fallbackMedia + {id}) else past;
            && (answer.Sent? ==> b.status.Succeeded?)
            && ItemOk(b, id, lease, now, used, after)
            && ItemMove(item, b, id, used, used, past, after, Some(h.token)) && PastElsewhere(past, after, id)
  {
  }

  lemma CloseKeeps(c: Catalogue, s: System, w: nat, now: Tick, io: Option<string>)
    requires Inv(c, s) && AtItem(c, s, w) && s.workers[w].pc.Closing? && s.clock <= now
    ensures var t := ApplyClose(c, s, w, now, io);
            Rely(s, t, Some(s.workers[w].pc.hold.token)) && Inv(c, t)
  {
    hide Inv, Rely, ItemOk, ItemMove, ItemOutcome, PastElsewhere, HoldOk;
    var t := ApplyClose(c, s, w, now, io);
    var me := s.workers[w];
    var pc := me.pc;
    Standing(c, s, w, pc.i);
    var id := IdOf(c, me, pc.i);
    var item := Get(s.ledger, id);
    if io.None? && ActiveClaim(item, pc.hold.token, now) {
      CloseMoves(item, id, LeaseOf(c, s.ledger, me.delivery), s.clock, s.used, s.past, pc.hold, pc.prepared, pc.answer,
                 pc.fallbackUsed, now);
      WriteKeeps(c, s, t, w, pc.i, t.workers[w].pc,
                 SettleItem(item, ItemOutcome(pc.answer, pc.prepared, pc.fallbackUsed), now), Some(pc.hold.token));
    } else {
      QuietKeeps(c, s, t, w, pc.i, Stopped);
      QuietIsAnyones(s, t, Some(pc.hold.token));
    }
  }

  // ------------------------------------------------------------ cache expiry

  lemma UploadsUnmoved(a: Item, b: Item, id: ItemId, past: History, after: History)
    requires UploadsOk(a, id, past) && SendFields(a) == SendFields(b) && after == past.(expired := after.expired)
    ensures UploadsOk(b, id, after)
  {
    hide Blank;
  }

  lemma SweepMoves(item: Item, id: ItemId, lease: nat, clock: Tick, used: set<string>, past: History, after: History,
                   now: Tick, ttl: Tick)
    requires ItemOk(item, id, lease, clock, used, past) && clock <= now
    requires after == past.(expired := after.expired) && past.expired <= after.expired
    requires Judge(item, now, ttl).Drop? && Judge(item, now, ttl).expired ==> id in after.expired
    ensures var b := Reconciled(item, now, ttl);
            ItemOk(b, id, lease, now, used, after) && ItemMove(item, b, id, used, used, past, after, None)
  {
    hide UploadsOk, CacheFile, NestedOk;
    UploadsUnmoved(item, Reconciled(item, now, ttl), id, past, after);
    match Judge(item, now, ttl)
    case Skip =>
    case Retain(_) =>
    case Drop(_, expired) =>
      if expired {
        assert ItemMove(item, Reconciled(item, now, ttl), id, used, used, past, after, None);
      }
  }

  lemma SweepItems(c: Catalogue, s: System, now: Tick, ttl: Tick, id: ItemId)
    requires LedgerOk(c, s) && s.clock <= now && Has(s.ledger, id)
    ensures var t := ApplySweep(s, now, ttl);
            && Has(t.ledger, id) && ItemStep(s, t, id, None)
            && ItemOk(Get(t.ledger, id), id, LeaseOf(c, t.ledger, id.delivery), t.clock, t.used, t.past)
  {
    hide ItemOk, ItemMove, Judge, Reconciled;
    var t := ApplySweep(s, now, ttl);
    var lease := LeaseOf(c, s.ledger, id.delivery);
    assert LeaseOf(c, t.ledger, id.delivery) == lease;
    assert ItemOk(Get(s.ledger, id), id, lease, s.clock, s.used, s.past);
    SweepMoves(Get(s.ledger, id), id, lease, s.clock, s.used, s.past, t.past, now, ttl);
  }

  lemma SweepShape(s: System, now: Tick, ttl: Tick)
    ensures var t := ApplySweep(s, now, ttl);
            && t.workers == s.workers && t.used == s.used && t.clock == now && t.ledger.Keys == s.ledger.Keys
            && t.past.claimed == s.past.claimed && t.past.uploads == s.past.uploads
            && t.past.blankAnswers == s.past.blankAnswers && t.past.fallbackMedia == s.past.fallbackMedia
            && (forall d :: d in s.ledger ==> t.ledger[d].fingerprint == s.ledger[d].fingerprint
                                              && t.ledger[d].planned == s.ledger[d].planned
                                              && t.ledger[d].items.Keys == s.ledger[d].items.Keys)
            && (forall id :: id in t.past.expired ==> id in s.past.expired || Has(s.ledger, id))
  {
    hide Judge, Reconciled;
  }

  lemma SweepKeeps(c: Catalogue, s: System, now: Tick, ttl: Tick)
    requires Inv(c, s) && s.clock <= now
    ensures var t := ApplySweep(s, now, ttl);
            Rely(s, t, None) && Inv(c, t)
  {
    hide ItemOk, ItemStep, AtItemOk, RecordsOk, InOrder, ApplySweep, PcOk;
    var t := ApplySweep(s, now, ttl);
    SweepShape(s, now, ttl);
    forall id | Has(s.ledger, id)
      ensures Has(t.ledger, id) && ItemStep(s, t, id, None)
      ensures ItemOk(Get(t.ledger, id), id, LeaseOf(c, t.ledger, id.delivery), t.clock, t.used, t.past)
    {
      SweepItems(c, s, now, ttl, id);
    }
    RecordsStay(c, s, t, None);
    OrderStays(c, s, t, ItemId("", ""), None);
    forall w | w in t.workers
      ensures Known(c, t.workers[w]) && PcOk(c, t, t.workers[w])
    {
      BystanderKeepsPc(c, s, t, None, s.workers[w]);
    }
  }

  // ----------------------------------------------------------------- all steps

  lemma StepKeeps(c: Catalogue, s: System, step: Step)
    requires Inv(c, s) && Enabled(c, s, step)
    ensures Rely(s, Apply(c, s, step), ActorOf(s, step)) && Inv(c, Apply(c, s, step))
  {
    hide Inv, Rely, ApplyPersist, ApplyWalk, ApplyClaim, ApplySettle, ApplyClose, ApplySweep;
    match step
    case Spawn(w, delivery, fingerprint, owner) => SpawnKeeps(c, s, w, delivery, fingerprint, owner);
    case Persist(w, now, io) => PersistKeeps(c, s, w, now, io);
    case Walk(w, now, token, io) => WalkKeeps(c, s, w, now, token, io);
    case Fetch(w, now, done, io) => FetchKeeps(c, s, w, now, done, io);
    case Claim(w, now, token, hasFallback, io) => ClaimKeeps(c, s, w, now, token, hasFallback, io);
    case Enter(w, allowed, prepare, stillAllowed) => EnterKeeps(c, s, w, allowed, prepare, stillAllowed);
    case Store(w, now, stillAllowed, io) => StoreKeeps(c, s, w, now, stillAllowed, io);
    case Call(w, answer) => CallKeeps(c, s, w, answer);
    case Settle(w, now, io) => SettleKeeps(c, s, w, now, io);
    case Close(w, now, io) => CloseKeeps(c, s, w, now, io);
    case Sweep(now, ttl) => SweepKeeps(c, s, now, ttl);
  }

  lemma {:induction false} RunKeeps(c: Catalogue, states: seq<System>, steps: seq<Step>, i: nat)
    requires WellFormed(c) && IsRun(c, states, steps) && i < |states|
    ensures Inv(c, states[i])
  {
    if i > 0 {
      RunKeeps(c, states, steps, i - 1);
      StepKeeps(c, states[i - 1], steps[i - 1]);
    }
  }
}
