// What every reachable state of the delivery processes satisfies. The proof is
// rely-guarantee: a step moves one item along `ItemStep`, the assertions every
// other worker makes survive any such move, and the acting worker re-establishes
// its own.
module DeliveryInvariants {
  import opened Prelude
  import opened DeliveryLedger
  import opened DeliveryWorkers

  // --------------------------------------------------------------- assertions

  predicate Stable(item: Item) {
    item.materialization.Some?
    && (item.materialization.value.status.Materialized? || item.materialization.value.status.NotRequired?)
  }

  predicate MaterialTerminalFailure(item: Item) {
    item.materialization.Some?
    && item.materialization.value.status.MaterialFailed? && !item.materialization.value.retryable
  }

  // The fields only a claim holder writes.
  function SendFields(item: Item)
    : (Stage, Stage, Option<string>, Option<string>, Option<string>, Option<string>)
  {
    (item.native, item.fallback, item.mediaId, item.mediaState, item.clientId, item.messageId)
  }

  function LeaseOf(c: Catalogue, l: Ledger, delivery: string): nat {
    if delivery in l && (delivery, l[delivery].fingerprint) in c
    then Max(c[(delivery, l[delivery].fingerprint)].leaseSeconds, 1) * SECOND
    else 0
  }

  predicate LeaseShape(item: Item, lease: nat, clock: Tick) {
    && item.claimToken.Some? && item.claimToken.value != ""
    && item.claimExpiresAt.At?
    && item.updatedAt.Some?
    && item.claimExpiresAt.time <= clock + lease
    && item.claimExpiresAt.time < item.updatedAt.value + lease + SECOND
  }

  // A claim on the item's media has a token and a lease.
  predicate NestedOk(m: Materialization) {
    m.status.Materializing? ==>
      m.claimToken.Some? && m.claimToken.value != "" && m.claimExpiresAt.At? && m.updatedAt.Some?
  }

  ghost predicate ItemOk(item: Item, id: ItemId, lease: nat, clock: Tick, used: set<string>, past: History) {
    && item.materialization.Some? && NestedOk(item.materialization.value)
    && (item.materialization.value.status.Materialized? ==> item.materialized.Some?)
    && (item.status.Sending? || item.status.Succeeded? ==> Stable(item))
    && (TerminalFailure(item) ==> Stable(item) || MaterialTerminalFailure(item))
    && (item.fallback != FRESH_STAGE ==> item.native.status.Unsupported?)
    && (item.status.Sending? ==> LeaseShape(item, lease, clock))
    && (item.claimToken.Some? ==> item.claimToken.value in used)
    && (item.status.Expired? ==> id in past.expired)
    && ((item.status.Pending? || item.status.Sending?) && !item.retryable ==> id in past.expired)
    && UploadsOk(item, id, past)
  }

  ghost predicate UploadsOk(item: Item, id: ItemId, past: History) {
    && ((id, Native) in past.uploads && !item.native.status.Unsupported? ==> NonBlank(item.mediaId))
    && ((id, Fallback) in past.uploads && id !in past.blankAnswers ==> NonBlank(item.fallback.mediaId))
    && ((id, Fallback) in past.uploads || id in past.fallbackMedia ==> item.native.status.Unsupported?)
  }

  predicate ItemMatches(p: PlanItem, item: Item, fingerprint: string) {
    && SameIdentity(item, p, fingerprint)
    && item.planned.Some?
    && item.materialization.Some?
    && (item.materialization.value.status.NotRequired? <==> !p.materialize)
  }

  predicate RecordMatches(d: Delivery, r: Record) {
    && r.planned.Some?
    && (forall k :: k in r.items ==> exists i :: 0 <= i < |d.items| && d.items[i].key == k)
    && forall i :: 0 <= i < |d.items| ==> d.items[i].key in r.items
                                          && ItemMatches(d.items[i], r.items[d.items[i].key], r.fingerprint)
  }

  predicate RecordsOk(c: Catalogue, l: Ledger) {
    forall d :: d in l ==> (d, l[d].fingerprint) in c && RecordMatches(c[(d, l[d].fingerprint)], l[d])
  }

  predicate Done(l: Ledger, id: ItemId) {
    Has(l, id) && Get(l, id).status.Succeeded?
  }

  // The first `n` items of a plan have been delivered.
  predicate DoneBefore(l: Ledger, delivery: string, items: seq<PlanItem>, n: nat)
    requires n <= |items|
  {
    forall j :: 0 <= j < n ==> Done(l, ItemId(delivery, items[j].key))
  }

  ghost predicate InOrder(c: Catalogue, s: System) {
    forall d, n :: d in s.ledger && (d, s.ledger[d].fingerprint) in c
                   && 0 <= n < |c[(d, s.ledger[d].fingerprint)].items|
                   && ItemId(d, c[(d, s.ledger[d].fingerprint)].items[n].key) in s.past.claimed
                   ==> DoneBefore(s.ledger, d, c[(d, s.ledger[d].fingerprint)].items, n)
  }

  ghost predicate PastOk(s: System) {
    && (forall id :: id in s.past.claimed ==> Has(s.ledger, id))
    && (forall id, name :: (id, name) in s.past.uploads ==> Has(s.ledger, id))
    && (forall id :: id in s.past.blankAnswers || id in s.past.fallbackMedia || id in s.past.expired ==>
                       Has(s.ledger, id))
  }

  // ------------------------------------------------------- worker assertions

  // The holder's token is still the one on record.
  predicate Latest(item: Item, h: Hold) {
    item.claimToken == Some(h.token)
  }

  predicate HoldOk(item: Item, id: ItemId, used: set<string>, past: History, h: Hold) {
    && h.token in used
    && Stable(item)
    && (Latest(item, h) ==> SendFields(item) == SendFields(h.view))
    && (Native in h.late && !h.claim.native.status.Unsupported? ==> LoadPrepared(h.claim, Native).Some?)
    && (Fallback in h.late ==> LoadPrepared(h.claim, Fallback).Some? || id in past.blankAnswers)
  }

  predicate StageOk(item: Item, h: Hold, name: StageName) {
    if name.Native? then
      !h.claim.native.status.Unsupported? && !h.view.native.status.Unsupported? && h.clean
      && h.claim.fallback == FRESH_STAGE
    else
      item.native.status.Unsupported? && h.view.native.status.Unsupported?
  }

  // An upload is on record for the stage and has not been blanked by an answer.
  predicate Reusable(past: History, id: ItemId, name: StageName) {
    (id, name) in past.uploads && (name.Native? || id !in past.blankAnswers)
  }

  predicate MediaOk(item: Item, id: ItemId, past: History, h: Hold, name: StageName, prepared: Option<Upload>) {
    Latest(item, h) && Reusable(past, id, name) ==> prepared.Some? && !Blank(prepared.value.mediaId)
  }

  predicate ClosingOk(item: Item, id: ItemId, past: History, h: Hold, prepared: Option<Upload>, fallbackUsed: bool) {
    && (fallbackUsed ==> item.native.status.Unsupported?)
    && (!fallbackUsed && Latest(item, h) && Reusable(past, id, Native) && !item.native.status.Unsupported?
        && prepared.Some? ==>
          !Blank(prepared.value.mediaId))
  }

  // What a program counter asserts about the item it stands at.
  predicate AtItemOk(item: Item, id: ItemId, used: set<string>, past: History, pc: Pc) {
    match pc
    case Idle => true
    case Stopped => true
    case Next(_) => true
    case Fetching(_, _) => true
    case ReadyToClaim(_, _) => Stable(item)
    case Entering(_, h, name) =>
      HoldOk(item, id, used, past, h) && StageOk(item, h, name)
      && MediaOk(item, id, past, h, name, LoadPrepared(h.claim, name))
    case Uploading(_, h, name, _) =>
      HoldOk(item, id, used, past, h) && StageOk(item, h, name)
      && (Latest(item, h) ==> !Reusable(past, id, name))
    case Calling(_, h, name, prepared) =>
      HoldOk(item, id, used, past, h) && StageOk(item, h, name) && MediaOk(item, id, past, h, name, prepared)
    case Settling(_, h, name, prepared, _) =>
      HoldOk(item, id, used, past, h) && StageOk(item, h, name) && MediaOk(item, id, past, h, name, prepared)
    case Closing(_, h, prepared, _, fallbackUsed) =>
      HoldOk(item, id, used, past, h) && ClosingOk(item, id, past, h, prepared, fallbackUsed)
  }

  predicate HasIndex(pc: Pc) {
    !pc.Idle? && !pc.Stopped?
  }

  ghost predicate PcOk(c: Catalogue, s: System, me: Worker)
    requires Known(c, me)
  {
    HasIndex(me.pc) ==>
      && Reached(s, me, Plan(c, me), me.pc.i)
      && (!me.pc.Next? ==>
            && me.pc.i < |Plan(c, me).items|
            && AtItemOk(Get(s.ledger, IdOf(c, me, me.pc.i)), IdOf(c, me, me.pc.i), s.used, s.past, me.pc))
  }

  // The worker's plan is the one on record and its first `i` items are delivered.
  ghost predicate Reached(s: System, me: Worker, plan: Delivery, i: nat) {
    && i <= |plan.items|
    && me.delivery in s.ledger
    && s.ledger[me.delivery].fingerprint == me.fingerprint
    && (forall j :: 0 <= j < |plan.items| ==> Has(s.ledger, ItemId(me.delivery, plan.items[j].key)))
    && DoneBefore(s.ledger, me.delivery, plan.items, i)
  }

  ghost predicate WorkersOk(c: Catalogue, s: System) {
    && (forall w :: w in s.workers ==> Known(c, s.workers[w]) && PcOk(c, s, s.workers[w]))
    && (forall v, w :: v in s.workers && w in s.workers && v != w
                       && Holding(s.workers[v].pc) && Holding(s.workers[w].pc) ==>
                         s.workers[v].pc.hold.token != s.workers[w].pc.hold.token)
  }

  ghost predicate LedgerOk(c: Catalogue, s: System) {
    && RecordsOk(c, s.ledger)
    && PastOk(s)
    && InOrder(c, s)
    && forall id :: Has(s.ledger, id) ==>
                      ItemOk(Get(s.ledger, id), id, LeaseOf(c, s.ledger, id.delivery), s.clock, s.used, s.past)
  }

  ghost predicate Inv(c: Catalogue, s: System) {
    WellFormed(c) && LedgerOk(c, s) && WorkersOk(c, s)
  }

  // ------------------------------------------------------- what a step may do

  // One-way changes of an item: nothing settled is ever unsettled.
  predicate Evolves(a: Item, b: Item) {
    && b.artifactId == a.artifactId && b.kind == a.kind && b.fingerprint == a.fingerprint && b.planned == a.planned
    && (a.materialization.Some? <==> b.materialization.Some?)
    && (a.materialization.Some? ==>
          (a.materialization.value.status.NotRequired? <==> b.materialization.value.status.NotRequired?))
    && (Stable(a) ==> Stable(b))
    && (a.status.Succeeded? ==> b.status.Succeeded?)
    && (TerminalFailure(a) ==> TerminalFailure(b))
    && (a.native.status.Unsupported? ==> b.native.status.Unsupported?)
  }

  // The run's record about one item: only additions.
  predicate Remembers(p: History, q: History, id: ItemId) {
    && (id in p.claimed ==> id in q.claimed)
    && (forall name :: (id, name) in p.uploads ==> (id, name) in q.uploads)
    && (id in p.blankAnswers ==> id in q.blankAnswers)
    && (id in p.fallbackMedia ==> id in q.fallbackMedia)
    && (id in p.expired ==> id in q.expired)
  }

  predicate SameUploads(p: History, q: History, id: ItemId) {
    && (forall name :: (id, name) in p.uploads <==> (id, name) in q.uploads)
    && (id in p.blankAnswers <==> id in q.blankAnswers)
  }

  // Only the holder named by `actor` writes the send fields of an item whose
  // token stays; a new token is one nobody held before.
  predicate ItemMove(a: Item, b: Item, id: ItemId, used: set<string>, usedAfter: set<string>, past: History,
                     pastAfter: History, actor: Option<string>)
  {
    && Evolves(a, b)
    && Remembers(past, pastAfter, id)
    && (if b.claimToken == a.claimToken then
          SendFields(b) != SendFields(a) || !SameUploads(past, pastAfter, id) ==>
            actor.Some? && b.claimToken == actor
        else
          b.claimToken.Some? && b.claimToken.value !in used && b.claimToken.value in usedAfter)
  }

  predicate ItemStep(s: System, t: System, id: ItemId, actor: Option<string>)
    requires Has(s.ledger, id) && Has(t.ledger, id)
  {
    ItemMove(Get(s.ledger, id), Get(t.ledger, id), id, s.used, t.used, s.past, t.past, actor)
  }

  ghost predicate Rely(s: System, t: System, actor: Option<string>) {
    && s.used <= t.used
    && (forall d :: d in s.ledger ==> d in t.ledger && t.ledger[d].fingerprint == s.ledger[d].fingerprint)
    && (forall id :: Has(s.ledger, id) ==> Has(t.ledger, id) && ItemStep(s, t, id, actor))
  }

  // ----------------------------------------------------- everyone else's view

  lemma ReachedStays(s: System, t: System, actor: Option<string>, me: Worker, plan: Delivery, i: nat)
    requires Rely(s, t, actor) && Reached(s, me, plan, i)
    ensures Reached(t, me, plan, i)
  {
    forall j | 0 <= j < i
      ensures Done(t.ledger, ItemId(me.delivery, plan.items[j].key))
    {
      var id := ItemId(me.delivery, plan.items[j].key);
      assert Done(s.ledger, id) && ItemStep(s, t, id, actor);
    }
  }

  lemma BystanderKeepsItem(a: Item, b: Item, id: ItemId, used: set<string>, usedAfter: set<string>, past: History,
                           pastAfter: History, actor: Option<string>, pc: Pc)
    requires AtItemOk(a, id, used, past, pc)
    requires used <= usedAfter && ItemMove(a, b, id, used, usedAfter, past, pastAfter, actor)
    requires Holding(pc) ==> Some(pc.hold.token) != actor
    ensures AtItemOk(b, id, usedAfter, pastAfter, pc)
  {
  }

  // A worker that is not acting keeps every assertion it makes.
  lemma BystanderKeepsPc(c: Catalogue, s: System, t: System, actor: Option<string>, me: Worker)
    requires Known(c, me) && PcOk(c, s, me)
    requires Rely(s, t, actor)
    requires Holding(me.pc) ==> Some(me.pc.hold.token) != actor
    ensures PcOk(c, t, me)
  {
    if HasIndex(me.pc) {
      ReachedStays(s, t, actor, me, Plan(c, me), me.pc.i);
      if !me.pc.Next? {
        var id := IdOf(c, me, me.pc.i);
        assert Has(s.ledger, id) && ItemStep(s, t, id, actor);
        BystanderKeepsItem(Get(s.ledger, id), Get(t.ledger, id), id, s.used, t.used, s.past, t.past, actor, me.pc);
      }
    }
  }

  // Assembling the next state's worker invariant from the acting worker's part.
  lemma WorkersStay(c: Catalogue, s: System, t: System, actor: Option<string>, w: nat)
    requires Inv(c, s)
    requires w in t.workers && Known(c, t.workers[w]) && PcOk(c, t, t.workers[w])
    requires t.workers.Keys == s.workers.Keys + {w}
    requires forall v :: v in s.workers && v != w ==> t.workers[v] == s.workers[v]
    requires Rely(s, t, actor)
    requires actor.Some? ==> w in s.workers && Holding(s.workers[w].pc) && actor == Some(s.workers[w].pc.hold.token)
    requires Holding(t.workers[w].pc) ==>
               || t.workers[w].pc.hold.token !in s.used
               || (w in s.workers && Holding(s.workers[w].pc)
                   && s.workers[w].pc.hold.token == t.workers[w].pc.hold.token)
    ensures WorkersOk(c, t)
  {
    hide LedgerOk, PcOk, Rely, WellFormed;
    forall v | v in t.workers && v != w
      ensures Known(c, t.workers[v]) && PcOk(c, t, t.workers[v])
      ensures Holding(t.workers[v].pc) ==> t.workers[v].pc.hold.token in s.used
    {
      var me := s.workers[v];
      assert PcOk(c, s, me);
      HeldTokenIsUsed(c, s, me);
      BystanderKeepsPc(c, s, t, actor, me);
    }
  }

  lemma HeldTokenIsUsed(c: Catalogue, s: System, me: Worker)
    requires Known(c, me) && PcOk(c, s, me)
    ensures Holding(me.pc) ==> me.pc.hold.token in s.used
  {
    hide Reached;
  }

  // ---------------------------------------------------- one item at a time

  ghost predicate PastElsewhere(p: History, q: History, id: ItemId) {
    forall other :: other != id ==>
                      && (other in p.claimed <==> other in q.claimed)
                      && (forall name :: (other, name) in p.uploads <==> (other, name) in q.uploads)
                      && (other in p.blankAnswers <==> other in q.blankAnswers)
                      && (other in p.fallbackMedia <==> other in q.fallbackMedia)
                      && (other in p.expired <==> other in q.expired)
  }

  // A step that rewrites one item and keeps that item's own assertions keeps
  // the ledger invariant, and is one the other workers tolerate.
  lemma OneItemStep(c: Catalogue, s: System, t: System, id: ItemId, item: Item, actor: Option<string>)
    requires WellFormed(c) && LedgerOk(c, s)
    requires Has(s.ledger, id) && t.ledger == Put(s.ledger, id, item)
    requires s.clock <= t.clock && s.used <= t.used
    requires PastElsewhere(s.past, t.past, id)
    requires ItemStep(s, t, id, actor)
    requires ItemOk(item, id, LeaseOf(c, s.ledger, id.delivery), t.clock, t.used, t.past)
    requires id in t.past.claimed ==>
               || id in s.past.claimed
               || (exists me, n: nat :: Known(c, me) && n < |Plan(c, me).items| && id == IdOf(c, me, n)
                                        && Reached(s, me, Plan(c, me), n))
    ensures Rely(s, t, actor)
    ensures LedgerOk(c, t)
  {
    hide ItemOk, ItemMove, ItemStep, DoneBefore, Reached, RecordMatches, Known;
    forall other | Has(s.ledger, other)
      ensures Has(t.ledger, other) && ItemStep(s, t, other, actor)
      ensures ItemOk(Get(t.ledger, other), other, LeaseOf(c, t.ledger, other.delivery), t.clock, t.used, t.past)
    {
      assert LeaseOf(c, t.ledger, other.delivery) == LeaseOf(c, s.ledger, other.delivery);
      assert ItemOk(Get(s.ledger, other), other, LeaseOf(c, s.ledger, other.delivery), s.clock, s.used, s.past);
      if other != id {
        UntouchedItem(c, s, t, id, other, actor);
      }
    }
    RecordsStay(c, s, t, actor);
    OrderStays(c, s, t, id, actor);
    PastStays(s, t, id);
  }

  lemma PastStays(s: System, t: System, id: ItemId)
    requires PastOk(s) && PastElsewhere(s.past, t.past, id) && Has(t.ledger, id)
    requires forall other :: Has(s.ledger, other) ==> Has(t.ledger, other)
    ensures PastOk(t)
  {
  }

  lemma UntouchedItem(c: Catalogue, s: System, t: System, id: ItemId, other: ItemId, actor: Option<string>)
    requires Has(s.ledger, other) && Has(t.ledger, other) && Get(t.ledger, other) == Get(s.ledger, other)
    requires other != id && PastElsewhere(s.past, t.past, id)
    requires s.clock <= t.clock && s.used <= t.used
    ensures ItemStep(s, t, other, actor)
    ensures forall lease: nat :: ItemOk(Get(s.ledger, other), other, lease, s.clock, s.used, s.past) ==>
                                   ItemOk(Get(t.ledger, other), other, lease, t.clock, t.used, t.past)
  {
  }

  lemma RecordsStay(c: Catalogue, s: System, t: System, actor: Option<string>)
    requires RecordsOk(c, s.ledger)
    requires Rely(s, t, actor)
    requires t.ledger.Keys == s.ledger.Keys
    requires forall d :: d in s.ledger ==> t.ledger[d].planned == s.ledger[d].planned
                                           && t.ledger[d].items.Keys == s.ledger[d].items.Keys
    ensures RecordsOk(c, t.ledger)
  {
    forall d | d in t.ledger
      ensures RecordMatches(c[(d, t.ledger[d].fingerprint)], t.ledger[d])
    {
      var plan := c[(d, t.ledger[d].fingerprint)];
      assert RecordMatches(plan, s.ledger[d]);
      forall i | 0 <= i < |plan.items|
        ensures ItemMatches(plan.items[i], t.ledger[d].items[plan.items[i].key], t.ledger[d].fingerprint)
      {
        var id := ItemId(d, plan.items[i].key);
        assert Has(s.ledger, id) && ItemStep(s, t, id, actor);
        assert ItemMatches(plan.items[i], Get(s.ledger, id), s.ledger[d].fingerprint);
      }
    }
  }

  lemma OrderStays(c: Catalogue, s: System, t: System, id: ItemId, actor: Option<string>)
    requires WellFormed(c) && RecordsOk(c, s.ledger) && InOrder(c, s)
    requires Rely(s, t, actor)
    requires t.ledger.Keys == s.ledger.Keys
    requires forall other :: other != id && other in t.past.claimed ==> other in s.past.claimed
    requires id in t.past.claimed ==>
               || id in s.past.claimed
               || (exists me, n: nat :: Known(c, me) && n < |Plan(c, me).items| && id == IdOf(c, me, n)
                                        && Reached(s, me, Plan(c, me), n))
    ensures InOrder(c, t)
  {
    hide Known, Reached, DoneBefore, ItemStep, RecordsOk;
    forall d, n | d in t.ledger && (d, t.ledger[d].fingerprint) in c
                  && 0 <= n < |c[(d, t.ledger[d].fingerprint)].items|
                  && ItemId(d, c[(d, t.ledger[d].fingerprint)].items[n].key) in t.past.claimed
      ensures DoneBefore(t.ledger, d, c[(d, t.ledger[d].fingerprint)].items, n)
    {
      var items := c[(d, t.ledger[d].fingerprint)].items;
      var at := ItemId(d, items[n].key);
      if at in s.past.claimed {
        ClaimedBefore(c, s, d, n);
      } else {
        var me, m: nat :| Known(c, me) && m < |Plan(c, me).items| && at == IdOf(c, me, m)
                          && Reached(s, me, Plan(c, me), m);
        ClaimedNow(c, s, me, m, d, n);
      }
      DoneStays(s, t, actor, d, items, n);
    }
  }

  // The item was claimed before the step.
  lemma ClaimedBefore(c: Catalogue, s: System, d: string, n: nat)
    requires InOrder(c, s) && d in s.ledger && (d, s.ledger[d].fingerprint) in c
    requires n < |c[(d, s.ledger[d].fingerprint)].items|
    requires ItemId(d, c[(d, s.ledger[d].fingerprint)].items[n].key) in s.past.claimed
    ensures DoneBefore(s.ledger, d, c[(d, s.ledger[d].fingerprint)].items, n)
  {
    hide DoneBefore;
  }

  // The step claims it, for a worker that has reached it.
  lemma ClaimedNow(c: Catalogue, s: System, me: Worker, m: nat, d: string, n: nat)
    requires WellFormed(c) && Known(c, me) && m < |Plan(c, me).items| && Reached(s, me, Plan(c, me), m)
    requires d in s.ledger && (d, s.ledger[d].fingerprint) in c && n < |c[(d, s.ledger[d].fingerprint)].items|
    requires ItemId(d, c[(d, s.ledger[d].fingerprint)].items[n].key) == IdOf(c, me, m)
    ensures DoneBefore(s.ledger, d, c[(d, s.ledger[d].fingerprint)].items, n)
  {
    assert Plan(c, me).items[m].key == c[(d, s.ledger[d].fingerprint)].items[n].key;
  }

  lemma DoneStays(s: System, t: System, actor: Option<string>, d: string, items: seq<PlanItem>, n: nat)
    requires Rely(s, t, actor) && n <= |items| && DoneBefore(s.ledger, d, items, n)
    ensures DoneBefore(t.ledger, d, items, n)
  {
    forall j | 0 <= j < n
      ensures Done(t.ledger, ItemId(d, items[j].key))
    {
      assert Done(s.ledger, ItemId(d, items[j].key));
      assert ItemStep(s, t, ItemId(d, items[j].key), actor);
    }
  }

  // A step that leaves the ledger and the record of the run alone.
  lemma QuietStep(c: Catalogue, s: System, t: System)
    requires Inv(c, s)
    requires t.ledger == s.ledger && t.past == s.past && s.used <= t.used && s.clock <= t.clock
    ensures Rely(s, t, None)
    ensures LedgerOk(c, t)
  {
    forall id | Has(s.ledger, id)
      ensures ItemStep(s, t, id, None)
      ensures ItemOk(Get(t.ledger, id), id, LeaseOf(c, t.ledger, id.delivery), t.clock, t.used, t.past)
    {
      assert ItemOk(Get(s.ledger, id), id, LeaseOf(c, s.ledger, id.delivery), s.clock, s.used, s.past);
    }
  }
}
