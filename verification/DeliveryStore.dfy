// The ledger as the store keeps it: a mutable map that each locked operation
// loads, edits entry by entry and writes back. A method that fails returns
// before the write, so the ledger keeps its old value.
module DeliveryStore {
  import opened Prelude
  import opened DeliveryLedger

  class Store {
    var records: Ledger

    constructor ()
      ensures records == map[]
    {
      records := map[];
    }

    method ClaimDeliveryItem(r: ClaimRequest, token: string, now: Tick) returns (reply: ClaimReply)
      modifies this
      ensures (records, reply) == ClaimItem(old(records), r, token, now)
    {
      var record := Record(r.fingerprint, None, map[]);
      if r.delivery in records {
        record := records[r.delivery];
      }
      if record.fingerprint != r.fingerprint {
        return Rejected("delivery item request fingerprint conflict");
      }
      var item := NewItem(r.fingerprint, r.artifactId, r.kind, r.cachePath, now);
      if r.item in record.items {
        item := record.items[r.item];
      }
      if item.artifactId != r.artifactId || item.kind != r.kind {
        return Rejected("delivery item identity conflict");
      }
      match item.fingerprint {
        case Some(known) =>
          if known != r.fingerprint {
            return Rejected("delivery item request fingerprint conflict");
          }
        case None =>
          item := item.(fingerprint := Some(r.fingerprint));
      }
      var previousPath := item.cachePath;
      if item.status == Succeeded {
        return AlreadySucceeded(item);
      }
      if item.status == Failed && !item.retryable {
        return TerminallyFailed(item);
      }
      if item.status == Sending {
        var live := Unexpired(item.updatedAt, item.claimExpiresAt, now);
        if live.Err? {
          return Rejected(live.error);
        }
        if live.value {
          return Busy(item);
        }
      }
      item := item.(status := Sending);
      item := item.(attempts := Min(item.attempts + 1, MAX_ATTEMPTS));
      item := item.(owner := Some(r.owner), claimToken := Some(token));
      item := item.(claimExpiresAt := At(LeaseUntil(now, r.leaseSeconds)));
      item := item.(cachePath := r.cachePath, updatedAt := Some(WholeSecond(now)));
      records := records[r.delivery := record.(items := record.items[r.item := item])];
      return Claimed(token, item, previousPath);
    }

    method PersistDeliveryPlan(delivery: string, fingerprint: string, outbound: Outbound, plan: seq<PlanItem>,
                               now: Tick) returns (result: Result<Unit>)
      modifies this
      ensures (records, result) == PersistPlan(old(records), delivery, fingerprint, outbound, plan, now)
    {
      var record := Record(fingerprint, Some(outbound), map[]);
      if delivery in records {
        record := records[delivery];
      }
      if record.fingerprint != fingerprint {
        return Err("delivery item request fingerprint conflict");
      }
      if record.planned.None? {
        record := record.(planned := Some(outbound));
      }
      var items := record.items;
      for i := 0 to |plan|
        invariant PlanItems(record.items, fingerprint, plan, now) == PlanItems(items, fingerprint, plan[i..], now)
        invariant records == old(records)
      {
        var p := plan[i];
        var item := NewItem(fingerprint, p.artifactId, p.kind, None, now).(
        planned := Some(p.outbound), materialization := Some(FreshMaterialization(p, now)));
        if p.key in items {
          item := items[p.key];
        }
        assert plan[i..][1..] == plan[i + 1..];
        if item.artifactId != p.artifactId || item.kind != p.kind || item.fingerprint != Some(fingerprint) {
          return Err("delivery item identity conflict");
        }
        if item.planned.None? {
          item := item.(planned := Some(p.outbound));
        }
        if item.materialization.None? {
          item := item.(materialization := Some(FreshMaterialization(p, now)));
        }
        items := items[p.key := item];
      }
      records := records[delivery := record.(items := items)];
      return Ok(Unit);
    }

    method ClaimDeliveryMaterialization(id: ItemId, owner: string, leaseSeconds: nat, token: string, now: Tick)
      returns (reply: MaterialReply)
      modifies this
      ensures (records, reply) == ClaimMaterial(old(records), id, owner, leaseSeconds, token, now)
    {
      if !Has(records, id) {
        return MaterialRejected("delivery materialization item is missing");
      }
      var item := Get(records, id);
      if item.materialization.None? {
        return MaterialRejected("delivery materialization state is invalid");
      }
      var m := item.materialization.value;
      if m.status == Materialized {
        return MaterialReady(item);
      }
      if m.status == NotRequired {
        return MaterialNotRequired(item);
      }
      if m.status == MaterialFailed && !m.retryable {
        return MaterialTerminal(item);
      }
      if m.status == Materializing {
        var live := Unexpired(m.updatedAt, m.claimExpiresAt, now);
        if live.Err? {
          return MaterialRejected(live.error);
        }
        if live.value {
          return MaterialBusy(item);
        }
      }
      m := m.(status := Materializing, attempts := Min(m.attempts + 1, MAX_ATTEMPTS));
      m := m.(owner := Some(owner), claimToken := Some(token));
      m := m.(claimExpiresAt := At(LeaseUntil(now, leaseSeconds)), updatedAt := Some(WholeSecond(now)));
      item := item.(materialization := Some(m));
      records := Put(records, id, item);
      return MaterialClaimed(token, item);
    }

    method FinishDeliveryMaterialization(id: ItemId, token: string, c: MaterialCompletion, now: Tick)
      returns (result: Result<Unit>)
      modifies this
      ensures (records, result) == FinishMaterial(old(records), id, token, c, now)
    {
      if !Has(records, id) {
        return Err("delivery materialization item is missing");
      }
      var item := Get(records, id);
      if item.materialization.None? {
        return Err("delivery materialization state is invalid");
      }
      var m := item.materialization.value;
      if !ActiveNestedClaim(m, token, now) {
        return Err("stale nested delivery claim");
      }
      m := m.(status := if c.ready then Materialized else MaterialFailed);
      m := m.(retryable := c.retryable, lastError := c.lastError);
      m := m.(owner := None, claimToken := None, claimExpiresAt := Null, updatedAt := Some(WholeSecond(now)));
      item := item.(materialization := Some(m));
      if c.outbound.Some? {
        item := item.(materialized := c.outbound);
      }
      item := item.(cachePath := c.cachePath);
      item := item.(status := if c.ready then Pending else Failed);
      item := item.(retryable := c.retryable, lastError := c.lastError, updatedAt := Some(WholeSecond(now)));
      records := Put(records, id, item);
      return Ok(Unit);
    }

    // `require_active_delivery_claim`: the stored lease is read before the token.
    method RequireActiveClaim(id: ItemId, token: string, now: Tick) returns (result: Result<Item>)
      ensures match result
              case Ok(item) => ClaimFault(records, id, token, now) == None && item == Get(records, id)
              case Err(error) => ClaimFault(records, id, token, now) == Some(error)
    {
      if !Has(records, id) {
        return Err("delivery item claim is missing");
      }
      var item := Get(records, id);
      var live := Unexpired(item.updatedAt, item.claimExpiresAt, now);
      if live.Err? {
        return Err(live.error);
      }
      if item.status != Sending || !TokenMatches(item.claimToken, token) || !live.value {
        return Err("stale delivery item claim");
      }
      return Ok(item);
    }

    method RecordDeliveryItemUpload(id: ItemId, token: string, name: StageName, u: Upload, now: Tick)
      returns (result: Result<Unit>)
      modifies this
      ensures (records, result) == RecordUpload(old(records), id, token, name, u, now)
    {
      var active := RequireActiveClaim(id, token, now);
      if active.Err? {
        return Err(active.error);
      }
      var item := active.value;
      var stage := item.StageOf(name).(status := Prepared, mediaId := Some(u.mediaId));
      stage := stage.(mediaState := u.state, clientId := u.clientId);
      item := item.WithStage(name, stage);
      item := item.(mediaId := Some(u.mediaId), mediaState := u.state);
      if u.clientId.Some? {
        item := item.(clientId := u.clientId);
      }
      item := item.(updatedAt := Some(WholeSecond(now)));
      records := Put(records, id, item);
      return Ok(Unit);
    }

    method FinishDeliveryStage(id: ItemId, token: string, name: StageName, c: StageCompletion, now: Tick)
      returns (result: Result<Unit>)
      modifies this
      ensures (records, result) == FinishStage(old(records), id, token, name, c, now)
    {
      var active := RequireActiveClaim(id, token, now);
      if active.Err? {
        return Err(active.error);
      }
      var item := active.value;
      var stage := item.StageOf(name).(status := c.status);
      if c.mediaId.Some? {
        stage := stage.(mediaId := c.mediaId);
      }
      if c.clientId.Some? {
        stage := stage.(clientId := c.clientId);
      }
      if c.messageId.Some? {
        stage := stage.(messageId := c.messageId);
      }
      stage := stage.(retryable := c.retryable, lastError := c.lastError);
      records := Put(records, id, item.WithStage(name, stage));
      return Ok(Unit);
    }

    method FinishDeliveryItem(id: ItemId, token: string, c: ItemCompletion, now: Tick)
      returns (result: Result<Unit>, terminalPath: Option<string>)
      modifies this
      ensures (records, result) == FinishItem(old(records), id, token, c, now)
      ensures terminalPath == if result.Ok? && (c.status.Succeeded? || !c.retryable)
                              then CacheFile(Get(old(records), id)) else None
    {
      terminalPath := None;
      var active := RequireActiveClaim(id, token, now);
      if active.Err? {
        return Err(active.error), None;
      }
      var item := active.value.(status := c.status);
      item := item.(mediaId := Or(c.mediaId, item.mediaId), clientId := Or(c.clientId, item.clientId));
      item := item.(messageId := Or(c.messageId, item.messageId));
      item := item.(retryable := c.retryable, lastError := c.lastError, fallbackUsed := c.fallbackUsed,
                    owner := None, claimExpiresAt := Null, updatedAt := Some(WholeSecond(now)));
      if c.status == Succeeded || !c.retryable {
        terminalPath := Trimmed(item.cachePath);
        item := item.(cachePath := None);
      }
      records := Put(records, id, item);
      result := Ok(Unit);
    }

    // The plans a restarted gateway takes up again, in any order.
    method RetryableDeliveryPlans() returns (plans: seq<Resumption>)
      ensures forall p :: p in plans <==>
                            p.delivery in records && Listed(records[p.delivery])
                            && p == ResumptionOf(p.delivery, records[p.delivery])
      ensures forall i, j :: 0 <= i < j < |plans| ==> plans[i].delivery != plans[j].delivery
    {
      plans := [];
      var rest := records.Keys;
      while rest != {}
        invariant rest <= records.Keys
        invariant forall p :: p in plans <==>
                                p.delivery in records && p.delivery !in rest && Listed(records[p.delivery])
                                && p == ResumptionOf(p.delivery, records[p.delivery])
        invariant forall i, j :: 0 <= i < j < |plans| ==> plans[i].delivery != plans[j].delivery
      {
        var d :| d in rest;
        assert forall i :: 0 <= i < |plans| ==> plans[i] in plans;
        rest := rest - {d};
        if Listed(records[d]) {
          plans := plans + [Resumption(d, records[d].fingerprint, records[d].planned.value)];
        }
      }
    }

    method ReconcileDeliveryCache(now: Tick, ttl: Tick) returns (retained: seq<string>, deleted: seq<string>)
      modifies this
      ensures records == Reconcile(old(records), now, ttl)
      ensures forall p :: p in retained <==> Retains(old(records), Ids(old(records)), p, now, ttl)
      ensures forall p :: p in deleted <==> Drops(old(records), Ids(old(records)), p, now, ttl)
    {
      retained, deleted := [], [];
      var rest := Ids(records);
      ghost var done: set<ItemId> := {};
      while rest != {}
        invariant done + rest == Ids(old(records)) && done !! rest
        invariant PartlyReconciled(records, old(records), done, now, ttl)
        invariant forall p :: p in retained <==> Retains(old(records), done, p, now, ttl)
        invariant forall p :: p in deleted <==> Drops(old(records), done, p, now, ttl)
      {
        var id :| id in rest;
        var item, keep, drop := ReconcileItem(Get(records, id), now, ttl);
        retained, deleted := retained + keep, deleted + drop;
        OneMoreJudged(old(records), done, id, now, ttl);
        OneMoreReconciled(records, old(records), done, id, now, ttl);
        records := Put(records, id, item);
        rest, done := rest - {id}, done + {id};
      }
      SameLedger(records, Reconcile(old(records), now, ttl));
    }
  }

  ghost predicate PartlyReconciled(l: Ledger, was: Ledger, done: set<ItemId>, now: Tick, ttl: Tick) {
    && SameShape(l, was)
    && forall id :: Has(was, id) ==>
                      Get(l, id) == if id in done then Reconciled(Get(was, id), now, ttl) else Get(was, id)
  }

  lemma OneMoreReconciled(l: Ledger, was: Ledger, done: set<ItemId>, id: ItemId, now: Tick, ttl: Tick)
    requires PartlyReconciled(l, was, done, now, ttl)
    requires Has(was, id) && id !in done
    ensures Get(l, id) == Get(was, id)
    ensures PartlyReconciled(Put(l, id, Reconciled(Get(l, id), now, ttl)), was, done + {id}, now, ttl)
  {
  }

  lemma OneMoreJudged(l: Ledger, done: set<ItemId>, id: ItemId, now: Tick, ttl: Tick)
    requires Has(l, id)
    ensures forall p :: Retains(l, done + {id}, p, now, ttl) <==>
                        Retains(l, done, p, now, ttl) || Judge(Get(l, id), now, ttl) == Retain(p)
    ensures forall p :: Drops(l, done + {id}, p, now, ttl) <==>
                        Drops(l, done, p, now, ttl)
                        || (Judge(Get(l, id), now, ttl).Drop? && Judge(Get(l, id), now, ttl).path == p)
  {
  }

  method ReconcileItem(stored: Item, now: Tick, ttl: Tick)
    returns (item: Item, keep: seq<string>, drop: seq<string>)
    ensures item == Reconciled(stored, now, ttl)
    ensures forall p :: p in keep <==> Judge(stored, now, ttl) == Retain(p)
    ensures forall p :: p in drop <==> Judge(stored, now, ttl).Drop? && Judge(stored, now, ttl).path == p
  {
    item, keep, drop := stored, [], [];
    var path := CacheFile(item);
    if path.None? {
      return;
    }
    var live := (item.status == Pending || item.status == Sending || item.status == Failed) && item.retryable;
    var expired := live && item.updatedAt.Some? && now - item.updatedAt.value > ttl;
    if live && !expired {
      if item.updatedAt.None? {
        item := item.(updatedAt := Some(now));
      }
      return item, [path.value], [];
    }
    item := item.(cachePath := None);
    if expired {
      item := item.(status := Expired, retryable := false, lastError := Some("delivery cache expired"));
      item := item.(owner := None, claimExpiresAt := Null);
    }
    item := item.(updatedAt := Some(now));
    drop := [path.value];
  }

  predicate SameShape(a: Ledger, b: Ledger) {
    && a.Keys == b.Keys
    && forall d :: d in a ==> a[d].fingerprint == b[d].fingerprint && a[d].planned == b[d].planned
                              && a[d].items.Keys == b[d].items.Keys
  }

  lemma SameLedger(a: Ledger, b: Ledger)
    requires SameShape(a, b)
    requires forall id :: Has(a, id) ==> Get(a, id) == Get(b, id)
    ensures a == b
  {
    forall d | d in a
      ensures a[d] == b[d]
    {
      forall k | k in a[d].items
        ensures a[d].items[k] == b[d].items[k]
      {
        var id := ItemId(d, k);
        assert Has(a, id) && Get(a, id) == a[d].items[k] && Get(b, id) == b[d].items[k];
      }
      assert a[d].items == b[d].items;
    }
  }
}
