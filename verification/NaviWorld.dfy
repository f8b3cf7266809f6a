// The route directory together with its surroundings: phones, devices that
// answer late or twice, and hubs that keep the highest revision they have seen
// of each selection. Updates may be delivered in any order and any number of
// times.
module NaviWorld {
  import opened Prelude
  import opened NaviRoutes

  // History: `queued` is the last update queued for each generation of a route,
  // `dropped` the generations whose update was given up without a receipt,
  // `sent` the updates handed out for delivery, `received` those a hub has
  // processed, `used` every generation ever minted.
  datatype World = World(
    clock: int,
    dir: Directory,
    used: set<string>,
    queued: map<Key, map<string, RouteUpdate>>,
    dropped: set<(Key, string)>,
    sent: set<RouteUpdate>,
    hubs: map<Selection, RouteUpdate>,
    received: set<RouteUpdate>)

  const DAWN := World(0, map[], {}, map[], {}, {}, map[], {})

  datatype Move =
    | BeginMove(m: Inbound, checked: int, now: int)
    | ClaimMove(at: Option<Key>, now: int)
    | FinishMove(p: Pending, status: nat, proof: Proof, identity: string, generation: string, now: int)
    | SendMove(k: Key, g: string, now: int)
    | HubMove(u: RouteUpdate)
    | ReceiptMove(u: RouteUpdate, status: nat, receipt: Receipt)
    | InvalidateMove(s: Selection)
    | NotifyMove(k: Key, now: int)

  function UpdateKey(u: RouteUpdate): Key {
    Key(u.recipient, u.routeKey)
  }

  ghost predicate Allowed(w: World, move: Move) {
    match move
    case BeginMove(_, checked, now) => w.clock <= now && checked <= now
    case ClaimMove(at, now) =>
      && w.clock <= now
      && (if CanExpire(w.dir, now) then
            if at.Some? then NextPending(ExpireAll(w.dir, now), at.value, now)
            else forall k :: k in w.dir ==> !DuePending(ExpireAll(w.dir, now)[k], now)
          else at.None?)
    case FinishMove(p, _, _, _, generation, now) =>
      // a binding once handed out names the device its proof names
      w.clock <= now && generation !in w.used && p.hubId == p.id.hub
    case SendMove(k, g, now) => w.clock <= now && NextUpdate(w.dir, k, g, now)
    case HubMove(u) => u in w.sent
    case ReceiptMove(u, status, receipt) =>
      // a hub confirms only what it has processed
      u in w.sent && (status == 200 && Confirms(receipt, u) ==> u in w.received)
    case InvalidateMove(_) => true
    case NotifyMove(k, now) => w.clock <= now && NextRoute(w.dir, k, now)
  }

  function RouteAt(d: Directory, k: Key): Route {
    if k in d then d[k] else NEW_ROUTE
  }

  function QueuedOf(w: World, k: Key): map<string, RouteUpdate> {
    if k in w.queued then w.queued[k] else map[]
  }

  // Updates numbered after the route's old revision are the new ones.
  function NewlyQueued(before: Route, after: Route): map<string, RouteUpdate> {
    map g | g in after.updates && after.updates[g].revision > before.revision :: after.updates[g]
  }

  function Requeued(w: World, dir: Directory): set<(Key, string)> {
    set k, g | k in dir && g in dir[k].updates && dir[k].updates[g].revision > RouteAt(w.dir, k).revision :: (k, g)
  }

  function Stored(w: World, dir: Directory, now: int): World {
    w.(
    clock := now,
    dir := dir,
    queued := map k | k in dir :: QueuedOf(w, k) + NewlyQueued(RouteAt(w.dir, k), dir[k]),
    dropped := w.dropped - Requeued(w, dir))
  }

  // A hub keeps the highest revision it has seen of each selection.
  function Processed(w: World, u: RouteUpdate): World {
    w.(
    hubs := if u.selection in w.hubs && w.hubs[u.selection].revision >= u.revision then w.hubs
            else w.hubs[u.selection := u],
    received := w.received + {u})
  }

  // The withdrawal of this identity drops the route's pending binding.
  predicate DropsPending(route: Route, s: Selection) {
    && route.pending.Some? && route.pending.value.hubId == s.hubId
    && Pinned(route.pending.value.hubIdentity, s.hubIdentity)
  }

  // Generations an invalidation gives up: those of the lost device, and the
  // current one where only its competing pending binding is withdrawn.
  function GivenUp(w: World, s: Selection): set<(Key, string)> {
    set k, g | k in w.dir && g in QueuedOf(w, k)
               && (SameDevice(QueuedOf(w, k)[g].selection, s)
                   || (DropsPending(w.dir[k], s) && w.dir[k].active.Some? && w.dir[k].active.value.generation == g))
               :: (k, g)
  }

  function Withdrawn(w: World, s: Selection): World {
    w.(dir := Invalidate(w.dir, s), dropped := w.dropped + GivenUp(w, s))
  }

  // A hub's answer reaches the directory.
  function Answered(w: World, u: RouteUpdate, status: nat, receipt: Receipt): World {
    var (dir, result) := FinishUpdate(w.dir, u, status, receipt);
    w.(dir := dir,
       dropped := if result.Ok? && Settles(w.dir, u) && status != 200
                  then w.dropped + {(UpdateKey(u), u.selection.generation)} else w.dropped)
  }

  function Apply(w: World, move: Move): World
    requires Allowed(w, move)
  {
    match move
    case BeginMove(m, checked, now) => Stored(w, Begin(w.dir, m, checked, now).0, now)
    case ClaimMove(at, now) =>
      if !CanExpire(w.dir, now) then w.(clock := now)
      else
        var dir := ExpireAll(w.dir, now);
        Stored(w, if at.Some? then Polled(dir, at.value, now) else dir, now)
    case FinishMove(p, status, proof, identity, generation, now) =>
      Stored(w, Finish(w.dir, p, status, proof, identity, generation, now).0, now).(used := w.used + {generation})
    case SendMove(k, g, now) =>
      var dir := Sent(w.dir, k, g, now);
      w.(clock := now, dir := dir, sent := w.sent + {dir[k].updates[g]})
    case HubMove(u) => Processed(w, u)
    case ReceiptMove(u, status, receipt) => Answered(w, u, status, receipt)
    case InvalidateMove(s) => Withdrawn(w, s)
    case NotifyMove(k, now) => w.(clock := now, dir := Notified(w.dir, k, now))
  }

  ghost predicate IsRun(worlds: seq<World>, moves: seq<Move>) {
    && |worlds| == |moves| + 1
    && worlds[0] == DAWN
    && forall i :: 0 <= i < |moves| ==> Allowed(worlds[i], moves[i]) && worlds[i + 1] == Apply(worlds[i], moves[i])
  }

  // --------------------------------------------------------------- invariant

  function Expected(route: Route, g: string): RouteStatus {
    if route.active.None? || route.active.value.generation != g then Retired
    else if route.pending.Some? then Paused
    else Active
  }

  // Equal but for the time of the next delivery attempt.
  predicate SameUpdate(a: RouteUpdate, b: RouteUpdate) {
    a == b.(nextPoll := a.nextPoll)
  }

  // What anyone holds of generation `g` is no newer than what was last queued.
  predicate NoNewer(u: RouteUpdate, q: map<string, RouteUpdate>) {
    && u.selection.generation in q
    && var last := q[u.selection.generation];
       && u.selection == last.selection
       && u.revision <= last.revision
       && (u.revision == last.revision ==> SameUpdate(u, last))
  }

  predicate Held(u: RouteUpdate, hubs: map<Selection, RouteUpdate>) {
    u.selection in hubs && SameUpdate(hubs[u.selection], u)
  }

  predicate NumbersOk(k: Key, route: Route, q: map<string, RouteUpdate>, used: set<string>) {
    && route.recipient == k.recipient && route.routeKey == k.routeKey && k.recipient != "" && k.routeKey != ""
    && |route.updates| <= MAX_UPDATES
    && (forall g :: g in route.updates ==> g in q && SameUpdate(route.updates[g], q[g]))
    && (forall g :: g in q ==> && g in used && q[g].selection.generation == g && UpdateKey(q[g]) == k
                               && q[g].revision <= route.revision)
    && (forall g, h :: g in q && h in q && g != h ==> q[g].revision != q[h].revision)
  }

  predicate ActiveOk(route: Route, q: map<string, RouteUpdate>) {
    route.active.Some? ==> route.active.value.generation in q
                           && q[route.active.value.generation].selection == route.active.value
  }

  predicate StatusOk(k: Key, route: Route, q: map<string, RouteUpdate>, dropped: set<(Key, string)>) {
    forall g :: g in q && (k, g) !in dropped ==> q[g].status == Expected(route, g)
  }

  predicate DeliveryOk(k: Key, route: Route, q: map<string, RouteUpdate>, dropped: set<(Key, string)>,
                       hubs: map<Selection, RouteUpdate>)
  {
    forall g :: g in q && (k, g) !in dropped ==> g in route.updates || Held(q[g], hubs)
  }

  predicate RouteOk(k: Key, route: Route, q: map<string, RouteUpdate>, dropped: set<(Key, string)>,
                    used: set<string>, hubs: map<Selection, RouteUpdate>)
  {
    && NumbersOk(k, route, q, used)
    && ActiveOk(route, q)
    && StatusOk(k, route, q, dropped)
    && DeliveryOk(k, route, q, dropped, hubs)
  }

  ghost predicate Inv(w: World) {
    && w.queued.Keys == w.dir.Keys
    && (forall k :: k in w.dir ==> RouteOk(k, w.dir[k], w.queued[k], w.dropped, w.used, w.hubs))
    && (forall j, k, g :: j in w.queued && k in w.queued && g in w.queued[j] && g in w.queued[k] ==> j == k)
    && (forall u :: u in w.sent ==> UpdateKey(u) in w.queued && NoNewer(u, w.queued[UpdateKey(u)]))
    && (forall s :: s in w.hubs ==> w.hubs[s].selection == s && w.hubs[s] in w.sent)
    && (forall u :: u in w.received ==> u.selection in w.hubs && w.hubs[u.selection].revision >= u.revision)
  }
}
