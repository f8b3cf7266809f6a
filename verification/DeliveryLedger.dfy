// The shared delivery ledger: one record per delivery key, one item per
// planned message part. Every operation runs under the ledger lock, so it is
// one atomic step that either commits a new ledger or leaves it unchanged.
//
// The functions give each operation's effect on the ledger as a value; the
// class `DeliveryStore` holds the ledger and updates it in place.
module DeliveryLedger {
  import opened Prelude

  // Nanoseconds since the epoch. `updated_at` is written in whole seconds,
  // lease ends keep their full precision.
  type Tick = nat

  const SECOND: Tick := 1_000_000_000
  const LEGACY_LEASE: Tick := 300 * SECOND
  const MAX_ATTEMPTS: nat := 0xFFFF_FFFF_FFFF_FFFF

  function WholeSecond(now: Tick): (r: Tick)
    ensures r <= now < r + SECOND
  {
    now / SECOND * SECOND
  }

  function LeaseUntil(now: Tick, leaseSeconds: nat): Tick {
    now + Max(leaseSeconds, 1) * SECOND
  }

  // ------------------------------------------------------------ data model

  datatype StageName = Native | Fallback

  datatype StageStatus = Untried | Prepared | Delivered | Refused | Unsupported

  datatype Stage = Stage(
    status: StageStatus,
    mediaId: Option<string>,
    mediaState: Option<string>,
    clientId: Option<string>,
    messageId: Option<string>,
    retryable: bool,
    lastError: Option<string>)

  const FRESH_STAGE := Stage(Untried, None, None, None, None, true, None)

  // The three ways `claim_expires_at` can appear in a stored claim.
  datatype LeaseEnd = Absent | Null | At(time: Tick)

  datatype MaterialStatus = Waiting | Materializing | Materialized | NotRequired | MaterialFailed

  datatype Materialization = Materialization(
    status: MaterialStatus,
    attempts: nat,
    retryable: bool,
    lastError: Option<string>,
    owner: Option<string>,
    claimToken: Option<string>,
    claimExpiresAt: LeaseEnd,
    updatedAt: Option<Tick>)

  datatype ItemStatus = Pending | Sending | Succeeded | Failed | Expired

  // An outbound payload: its serialized body, and the local path of its first
  // attachment when it has one.
  datatype Outbound = Outbound(body: string, path: Option<string>)

  datatype Item = Item(
    fingerprint: Option<string>,
    artifactId: string,
    kind: string,
    planned: Option<Outbound>,
    materialization: Option<Materialization>,
    materialized: Option<Outbound>,
    status: ItemStatus,
    attempts: nat,
    mediaId: Option<string>,
    mediaState: Option<string>,
    clientId: Option<string>,
    messageId: Option<string>,
    native: Stage,
    fallback: Stage,
    fallbackUsed: bool,
    retryable: bool,
    lastError: Option<string>,
    owner: Option<string>,
    claimToken: Option<string>,
    claimExpiresAt: LeaseEnd,
    cachePath: Option<string>,
    updatedAt: Option<Tick>)
  {
    function StageOf(name: StageName): Stage {
      if name.Native? then native else fallback
    }

    function WithStage(name: StageName, stage: Stage): Item {
      if name.Native? then this.(native := stage) else this.(fallback := stage)
    }
  }

  datatype Record = Record(fingerprint: string, planned: Option<Outbound>, items: map<string, Item>)

  type Ledger = map<string, Record>

  datatype ItemId = ItemId(delivery: string, item: string)

  function Ids(l: Ledger): (r: set<ItemId>)
    ensures forall id :: id in r <==> Has(l, id)
  {
    set d, k | d in l && k in l[d].items :: ItemId(d, k)
  }

  predicate Has(l: Ledger, id: ItemId) {
    id.delivery in l && id.item in l[id.delivery].items
  }

  function Get(l: Ledger, id: ItemId): Item
    requires Has(l, id)
  {
    l[id.delivery].items[id.item]
  }

  function Put(l: Ledger, id: ItemId, item: Item): (r: Ledger)
    requires Has(l, id)
    ensures forall other :: Has(r, other) <==> Has(l, other)
    ensures forall other :: Has(l, other) ==> Get(r, other) == if other == id then item else Get(l, other)
    ensures r.Keys == l.Keys
    ensures forall d :: d in l ==> r[d].fingerprint == l[d].fingerprint && r[d].planned == l[d].planned
                                   && r[d].items.Keys == l[d].items.Keys
  {
    l[id.delivery := l[id.delivery].(items := l[id.delivery].items[id.item := item])]
  }

  // ------------------------------------------------------- leases and tokens

  function Unexpired(updatedAt: Option<Tick>, expiry: LeaseEnd, now: Tick): Result<bool> {
    if updatedAt.None? then Err("delivery claim lease updated_at is missing")
    else match expiry
      case At(time) => Ok(time > now)
      case Null => Err("delivery claim lease claim_expires_at is malformed")
      case Absent => Ok(updatedAt.value + LEGACY_LEASE > now)
  }

  predicate TokenMatches(stored: Option<string>, token: string) {
    stored.Some? && stored.value != "" && stored.value == token
  }

  // The send claim a write needs: status sending, this token, a running lease.
  predicate ActiveClaim(item: Item, token: string, now: Tick) {
    && item.status.Sending?
    && TokenMatches(item.claimToken, token)
    && Unexpired(item.updatedAt, item.claimExpiresAt, now) == Ok(true)
  }

  predicate ActiveNestedClaim(m: Materialization, token: string, now: Tick) {
    && m.status.Materializing?
    && TokenMatches(m.claimToken, token)
    && Unexpired(m.updatedAt, m.claimExpiresAt, now) == Ok(true)
  }

  // -------------------------------------------------------- claim an item

  datatype ClaimRequest = ClaimRequest(
    delivery: string,
    fingerprint: string,
    item: string,
    artifactId: string,
    kind: string,
    owner: string,
    cachePath: Option<string>,
    leaseSeconds: nat)

  datatype ClaimReply =
    | AlreadySucceeded(item: Item)
    | TerminallyFailed(item: Item)
    | Busy(item: Item)
    | Claimed(token: string, item: Item, previousPath: Option<string>)
    | Rejected(error: string)

  predicate TerminalFailure(item: Item) {
    item.status.Failed? && !item.retryable
  }

  function NewItem(fingerprint: string, artifactId: string, kind: string, path: Option<string>, now: Tick): Item {
    Item(Some(fingerprint), artifactId, kind, None, None, None, Pending, 0, None, None, None, None,
         FRESH_STAGE, FRESH_STAGE, false, true, None, None, None, Null, path, Some(WholeSecond(now)))
  }

  function GrantClaim(item: Item, r: ClaimRequest, token: string, now: Tick): Item {
    item.(
    status := Sending,
    attempts := Min(item.attempts + 1, MAX_ATTEMPTS),
    owner := Some(r.owner),
    claimToken := Some(token),
    claimExpiresAt := At(LeaseUntil(now, r.leaseSeconds)),
    cachePath := r.cachePath,
    updatedAt := Some(WholeSecond(now)))
  }

  function RecordOrNew(l: Ledger, delivery: string, fingerprint: string, planned: Option<Outbound>): Record {
    if delivery in l then l[delivery] else Record(fingerprint, planned, map[])
  }

  // The reply to a claim, read off the item before anything is written.
  function ClaimAnswer(item: Item, r: ClaimRequest, token: string, now: Tick): ClaimReply {
    if item.artifactId != r.artifactId || item.kind != r.kind then
      Rejected("delivery item identity conflict")
    else if item.fingerprint.Some? && item.fingerprint.value != r.fingerprint then
      Rejected("delivery item request fingerprint conflict")
    else
      var known := item.(fingerprint := Some(r.fingerprint));
      if known.status.Succeeded? then AlreadySucceeded(known)
      else if TerminalFailure(known) then TerminallyFailed(known)
      else if known.status.Sending? && Unexpired(known.updatedAt, known.claimExpiresAt, now).Err? then
        Rejected(Unexpired(known.updatedAt, known.claimExpiresAt, now).error)
      else if known.status.Sending? && Unexpired(known.updatedAt, known.claimExpiresAt, now).value then
        Busy(known)
      else Claimed(token, GrantClaim(known, r, token, now), item.cachePath)
  }

  function ClaimItem(l: Ledger, r: ClaimRequest, token: string, now: Tick): (Ledger, ClaimReply) {
    var record := RecordOrNew(l, r.delivery, r.fingerprint, None);
    if record.fingerprint != r.fingerprint then
      (l, Rejected("delivery item request fingerprint conflict"))
    else
      var item := if r.item in record.items then record.items[r.item]
                  else NewItem(r.fingerprint, r.artifactId, r.kind, r.cachePath, now);
      var reply := ClaimAnswer(item, r, token, now);
      if reply.Claimed? then
        (l[r.delivery := record.(items := record.items[r.item := reply.item])], reply)
      else (l, reply)
  }

  // -------------------------------------------------------- plan a delivery

  datatype PlanItem = PlanItem(
    key: string,
    artifactId: string,
    kind: string,
    outbound: Outbound,
    materialize: bool)

  function FreshMaterialization(p: PlanItem, now: Tick): Materialization {
    Materialization(if p.materialize then Waiting else NotRequired, 0, p.materialize, None, None, None, Null,
                    Some(WholeSecond(now)))
  }

  predicate SameIdentity(item: Item, p: PlanItem, fingerprint: string) {
    item.artifactId == p.artifactId && item.kind == p.kind && item.fingerprint == Some(fingerprint)
  }

  function PlannedItem(items: map<string, Item>, fingerprint: string, p: PlanItem, now: Tick): Item {
    var item := if p.key in items then items[p.key]
                else NewItem(fingerprint, p.artifactId, p.kind, None, now);
    var named := if item.planned.None? then item.(planned := Some(p.outbound)) else item;
    if named.materialization.None? then named.(materialization := Some(FreshMaterialization(p, now))) else named
  }

  function PlanItems(items: map<string, Item>, fingerprint: string, plan: seq<PlanItem>, now: Tick)
    : Result<map<string, Item>>
    decreases |plan|
  {
    if plan == [] then Ok(items)
    else
      var item := PlannedItem(items, fingerprint, plan[0], now);
      if SameIdentity(item, plan[0], fingerprint) then
        PlanItems(items[plan[0].key := item], fingerprint, plan[1..], now)
      else Err("delivery item identity conflict")
  }

  function PersistPlan(l: Ledger, delivery: string, fingerprint: string, outbound: Outbound, plan: seq<PlanItem>,
                       now: Tick): (Ledger, Result<Unit>)
  {
    var record := RecordOrNew(l, delivery, fingerprint, Some(outbound));
    if record.fingerprint != fingerprint then (l, Err("delivery item request fingerprint conflict"))
    else
      var items := PlanItems(record.items, fingerprint, plan, now);
      if items.Err? then (l, Err(items.error))
      else
        var planned := if record.planned.None? then Some(outbound) else record.planned;
        (l[delivery := Record(fingerprint, planned, items.value)], Ok(Unit))
  }

  // ------------------------------------------------------- materialization

  datatype MaterialReply =
    | MaterialReady(item: Item)
    | MaterialNotRequired(item: Item)
    | MaterialTerminal(item: Item)
    | MaterialBusy(item: Item)
    | MaterialClaimed(token: string, item: Item)
    | MaterialRejected(error: string)

  function GrantMaterial(m: Materialization, owner: string, token: string, leaseSeconds: nat, now: Tick)
    : Materialization
  {
    m.(
    status := Materializing,
    attempts := Min(m.attempts + 1, MAX_ATTEMPTS),
    owner := Some(owner),
    claimToken := Some(token),
    claimExpiresAt := At(LeaseUntil(now, leaseSeconds)),
    updatedAt := Some(WholeSecond(now)))
  }

  function MaterialAnswer(item: Item, owner: string, leaseSeconds: nat, token: string, now: Tick): MaterialReply {
    if item.materialization.None? then MaterialRejected("delivery materialization state is invalid")
    else
      var m := item.materialization.value;
      if m.status.Materialized? then MaterialReady(item)
      else if m.status.NotRequired? then MaterialNotRequired(item)
      else if m.status.MaterialFailed? && !m.retryable then MaterialTerminal(item)
      else if m.status.Materializing? && Unexpired(m.updatedAt, m.claimExpiresAt, now).Err? then
        MaterialRejected(Unexpired(m.updatedAt, m.claimExpiresAt, now).error)
      else if m.status.Materializing? && Unexpired(m.updatedAt, m.claimExpiresAt, now).value then
        MaterialBusy(item)
      else
        MaterialClaimed(token, item.(materialization := Some(GrantMaterial(m, owner, token, leaseSeconds, now))))
  }

  function ClaimMaterial(l: Ledger, id: ItemId, owner: string, leaseSeconds: nat, token: string, now: Tick)
    : (Ledger, MaterialReply)
  {
    if !Has(l, id) then (l, MaterialRejected("delivery materialization item is missing"))
    else
      var reply := MaterialAnswer(Get(l, id), owner, leaseSeconds, token, now);
      if reply.MaterialClaimed? then (Put(l, id, reply.item), reply) else (l, reply)
  }

  // `ready` chooses between the two completion statuses the store accepts.
  datatype MaterialCompletion = MaterialCompletion(
    ready: bool,
    outbound: Option<Outbound>,
    cachePath: Option<string>,
    retryable: bool,
    lastError: Option<string>)

  function SettleMaterial(item: Item, c: MaterialCompletion, now: Tick): Item
    requires item.materialization.Some?
  {
    item.(
    materialization := Some(item.materialization.value.(
      status := if c.ready then Materialized else MaterialFailed,
      retryable := c.retryable,
      lastError := c.lastError,
      owner := None,
      claimToken := None,
      claimExpiresAt := Null,
      updatedAt := Some(WholeSecond(now)))),
    materialized := if c.outbound.Some? then c.outbound else item.materialized,
    cachePath := c.cachePath,
    status := if c.ready then Pending else Failed,
    retryable := c.retryable,
    lastError := c.lastError,
    updatedAt := Some(WholeSecond(now)))
  }

  function FinishMaterial(l: Ledger, id: ItemId, token: string, c: MaterialCompletion, now: Tick)
    : (Ledger, Result<Unit>)
  {
    if !Has(l, id) then (l, Err("delivery materialization item is missing"))
    else if Get(l, id).materialization.None? then (l, Err("delivery materialization state is invalid"))
    else if !ActiveNestedClaim(Get(l, id).materialization.value, token, now) then
      (l, Err("stale nested delivery claim"))
    else (Put(l, id, SettleMaterial(Get(l, id), c, now)), Ok(Unit))
  }

  // ------------------------------------------------- writes by the claim holder

  // What an adapter's `prepare_outbound` hands back after an upload.
  datatype Upload = Upload(mediaId: string, clientId: Option<string>, state: Option<string>)

  function StoreUpload(item: Item, name: StageName, u: Upload, now: Tick): Item {
    var stage := item.StageOf(name).(
      status := Prepared, mediaId := Some(u.mediaId), mediaState := u.state, clientId := u.clientId);
    item.WithStage(name, stage).(
    mediaId := Some(u.mediaId),
    mediaState := u.state,
    clientId := Or(u.clientId, item.clientId),
    updatedAt := Some(WholeSecond(now)))
  }

  datatype StageCompletion = StageCompletion(
    status: StageStatus,
    mediaId: Option<string>,
    clientId: Option<string>,
    messageId: Option<string>,
    retryable: bool,
    lastError: Option<string>)

  function SettleStage(item: Item, name: StageName, c: StageCompletion): Item {
    var stage := item.StageOf(name);
    item.WithStage(name, stage.(
      status := c.status,
      mediaId := Or(c.mediaId, stage.mediaId),
      clientId := Or(c.clientId, stage.clientId),
      messageId := Or(c.messageId, stage.messageId),
      retryable := c.retryable,
      lastError := c.lastError))
  }

  datatype ItemCompletion = ItemCompletion(
    status: ItemStatus,
    mediaId: Option<string>,
    clientId: Option<string>,
    messageId: Option<string>,
    retryable: bool,
    lastError: Option<string>,
    fallbackUsed: bool)

  function SettleItem(item: Item, c: ItemCompletion, now: Tick): Item {
    item.(
    status := c.status,
    mediaId := Or(c.mediaId, item.mediaId),
    clientId := Or(c.clientId, item.clientId),
    messageId := Or(c.messageId, item.messageId),
    retryable := c.retryable,
    lastError := c.lastError,
    fallbackUsed := c.fallbackUsed,
    owner := None,
    claimExpiresAt := Null,
    cachePath := if c.status.Succeeded? || !c.retryable then None else item.cachePath,
    updatedAt := Some(WholeSecond(now)))
  }

  // Why a write under `token` is refused, if it is: the stored lease is read
  // before the status and the token.
  function ClaimFault(l: Ledger, id: ItemId, token: string, now: Tick): (r: Option<string>)
    ensures r.None? <==> Has(l, id) && ActiveClaim(Get(l, id), token, now)
  {
    if !Has(l, id) then Some("delivery item claim is missing")
    else
      var lease := Unexpired(Get(l, id).updatedAt, Get(l, id).claimExpiresAt, now);
      if lease.Err? then Some(lease.error)
      else if !ActiveClaim(Get(l, id), token, now) then Some("stale delivery item claim")
      else None
  }

  function RecordUpload(l: Ledger, id: ItemId, token: string, name: StageName, u: Upload, now: Tick)
    : (Ledger, Result<Unit>)
  {
    var fault := ClaimFault(l, id, token, now);
    if fault.Some? then (l, Err(fault.value)) else (Put(l, id, StoreUpload(Get(l, id), name, u, now)), Ok(Unit))
  }

  function FinishStage(l: Ledger, id: ItemId, token: string, name: StageName, c: StageCompletion, now: Tick)
    : (Ledger, Result<Unit>)
  {
    var fault := ClaimFault(l, id, token, now);
    if fault.Some? then (l, Err(fault.value)) else (Put(l, id, SettleStage(Get(l, id), name, c)), Ok(Unit))
  }

  function FinishItem(l: Ledger, id: ItemId, token: string, c: ItemCompletion, now: Tick)
    : (Ledger, Result<Unit>)
  {
    var fault := ClaimFault(l, id, token, now);
    if fault.Some? then (l, Err(fault.value)) else (Put(l, id, SettleItem(Get(l, id), c, now)), Ok(Unit))
  }

  // `.map(str::trim).filter(non-empty)` on a stored cache path
  function CacheFile(item: Item): Option<string> {
    Trimmed(item.cachePath)
  }

  // ------------------------------------------------------ recovery and cache

  predicate OpenStatus(item: Item) {
    item.status.Pending? || item.status.Sending? || item.status.Failed?
  }

  predicate Listed(record: Record) {
    && (forall k :: k in record.items ==> !TerminalFailure(record.items[k]))
    && (exists k :: k in record.items && OpenStatus(record.items[k]) && record.items[k].retryable)
    && record.planned.Some?
  }

  // What is needed to take up a plan again.
  datatype Resumption = Resumption(delivery: string, fingerprint: string, outbound: Outbound)

  function ResumptionOf(delivery: string, record: Record): Resumption
    requires record.planned.Some?
  {
    Resumption(delivery, record.fingerprint, record.planned.value)
  }

  // What `reconcile_delivery_cache` decides for one item.
  datatype Verdict = Skip | Retain(path: string) | Drop(path: string, expired: bool)

  function Judge(item: Item, now: Tick, ttl: Tick): Verdict {
    var path := CacheFile(item);
    if path.None? then Skip
    else
      var live := OpenStatus(item) && item.retryable;
      var expired := live && item.updatedAt.Some? && now - item.updatedAt.value > ttl;
      if live && !expired then Retain(path.value) else Drop(path.value, expired)
  }

  function Reconciled(item: Item, now: Tick, ttl: Tick): Item {
    match Judge(item, now, ttl)
    case Skip => item
    case Retain(_) => if item.updatedAt.None? then item.(updatedAt := Some(now)) else item
    case Drop(_, false) => item.(cachePath := None, updatedAt := Some(now))
    case Drop(_, true) =>
      item.(
      cachePath := None,
      status := Expired,
      retryable := false,
      lastError := Some("delivery cache expired"),
      owner := None,
      claimExpiresAt := Null,
      updatedAt := Some(now))
  }

  function ReconcileItems(items: map<string, Item>, now: Tick, ttl: Tick): map<string, Item> {
    map k | k in items :: Reconciled(items[k], now, ttl)
  }

  function Reconcile(l: Ledger, now: Tick, ttl: Tick): (r: Ledger)
    ensures forall id :: Has(r, id) <==> Has(l, id)
    ensures forall id :: Has(l, id) ==> Get(r, id) == Reconciled(Get(l, id), now, ttl)
  {
    map d | d in l :: l[d].(items := ReconcileItems(l[d].items, now, ttl))
  }

  // Some item among `ids` keeps, or gives up, the cache file `path`.
  predicate Retains(l: Ledger, ids: set<ItemId>, path: string, now: Tick, ttl: Tick) {
    exists id :: id in ids && Has(l, id) && Judge(Get(l, id), now, ttl) == Retain(path)
  }

  predicate Drops(l: Ledger, ids: set<ItemId>, path: string, now: Tick, ttl: Tick) {
    exists id :: id in ids && Has(l, id) && Judge(Get(l, id), now, ttl).Drop?
                 && Judge(Get(l, id), now, ttl).path == path
  }
}
