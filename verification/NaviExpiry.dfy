// Expired bindings can always be dropped. One transaction drops them on every
// route, and each drop queues an update, so a single full outbox would keep
// every phone waiting. It cannot come to that: whoever has a binding pending
// has room for the update that its end will queue.
module NaviExpiry {
  import opened Prelude
  import opened NaviRoutes
  import opened NaviWorld
  import opened NaviProofs
  import opened NaviSteps
  import opened NaviSelections

  predicate HasRoom(route: Route) {
    route.pending.Some? && route.active.Some? ==>
      route.active.value.generation in route.updates || |route.updates| < MAX_UPDATES
  }

  lemma QueueLeavesRoom(route: Route, status: RouteStatus, now: int)
    requires QueueUpdate(route, status, now).Ok? && route.recipient != "" && route.routeKey != ""
    ensures var after := QueueUpdate(route, status, now).value;
            HasRoom(after) && after.pending == route.pending && after.revision <= route.revision + 1
  {
  }

  lemma ProofNames(m: Inbound)
    requires ProofShape(m)
    ensures m.userId != "" && m.routeKey != ""
  {
  }

  lemma BeginLeavesRoom(d: Directory, m: Inbound, checked: int, now: int, k: Key)
    requires k in Begin(d, m, checked, now).0 && (k in d ==> HasRoom(d[k]))
    ensures var after := Begin(d, m, checked, now).0[k];
            HasRoom(after) && after.revision <= RouteAt(d, k).revision + 2
  {
    hide ProofShape, QueueUpdate;
    if ProofShape(m) {
      ProofNames(m);
      var route := WithProof(Opened(d, m, now), m, now);
      if QueueUpdate(route, Paused, now).Ok? {
        QueueLeavesRoom(route, Paused, now);
      }
    }
  }

  lemma ExpireLeavesRoom(route: Route, now: int)
    requires HasRoom(route) && ExpireRoute(route, now).Ok? && route.recipient != "" && route.routeKey != ""
    ensures var after := ExpireRoute(route, now).value;
            HasRoom(after) && after.revision <= route.revision + 2
  {
    hide QueueUpdate;
    if route.pending.Some? && route.pending.value.expiresAt <= now {
      QueueLeavesRoom(route.(pending := None), Active, now);
    }
  }

  lemma SwitchLeavesRoom(route: Route, s: Selection, now: int)
    requires Switch(route, s, now).Ok?
    ensures var after := Switch(route, s, now).value;
            HasRoom(after) && after.revision <= route.revision + 2
  {
    SwitchSteps(route, s, now);
  }

  lemma FinishLeavesRoom(route: Route, p: Pending, status: nat, proof: Proof, identity: string, generation: string,
                         now: int)
    requires HasRoom(route) && route.recipient != "" && route.routeKey != ""
    requires FinishRoute(route, p, status, proof, identity, generation, now).Ok?
    ensures var after := FinishRoute(route, p, status, proof, identity, generation, now).value;
            HasRoom(after) && after.revision <= route.revision + 2
  {
    hide QueueUpdate, Switch, Refusal, ValidProofId, AllHex;
    if route.pending.Some? && route.pending.value.id == p.id {
      var current := route.pending.value;
      if current.expiresAt <= now || Refusal(status) {
        QueueLeavesRoom(route.(pending := None), Active, now);
      } else if Bound(current, proof, now) && proof.status != Some("awaiting_owner_confirmation") {
        SwitchLeavesRoom(route.(pending := Some(Refreshed(current, proof, identity))),
                         Selection(p.hubId, identity, proof.sessionId.value, generation, now), now);
      }
    }
  }

  lemma SettledLeavesRoom(route: Route, g: string)
    requires HasRoom(route) && g in route.updates && |route.updates| <= MAX_UPDATES
    ensures HasRoom(route.(updates := route.updates - {g}))
  {
    assert (route.updates - {g}).Keys == route.updates.Keys - {g};
    assert |route.updates - {g}| == |(route.updates - {g}).Keys| == |route.updates.Keys| - 1;
  }

  lemma ResentLeavesRoom(route: Route, g: string, u: RouteUpdate)
    requires HasRoom(route) && g in route.updates
    ensures HasRoom(route.(updates := route.updates[g := u]))
  {
    assert route.updates[g := u].Keys == route.updates.Keys;
    assert |route.updates[g := u]| == |route.updates[g := u].Keys| == |route.updates|;
  }

  // A selection that survives a withdrawal keeps its own update.
  lemma InvalidateLeavesRoom(k: Key, route: Route, s: Selection, q: map<string, RouteUpdate>, used: set<string>)
    requires HasRoom(route) && NumbersOk(k, route, q, used) && ActiveOk(route, q)
    ensures HasRoom(InvalidateRoute(route, s)) && InvalidateRoute(route, s).revision == route.revision
  {
    FewerUpdates(route.updates, s);
  }

  lemma KnownParts(w: World, k: Key)
    requires Inv(w) && k in w.dir
    ensures var route := w.dir[k];
            && k in w.queued && NumbersOk(k, route, w.queued[k], w.used) && ActiveOk(route, w.queued[k])
            && route.recipient != "" && route.routeKey != "" && |route.updates| <= MAX_UPDATES
  {
    hide StatusOk, DeliveryOk;
    assert RouteOk(k, w.dir[k], w.queued[k], w.dropped, w.used, w.hubs);
  }

  lemma MoveLeavesRoom(w: World, move: Move, k: Key)
    requires Inv(w) && Allowed(w, move) && k in Apply(w, move).dir && (k in w.dir ==> HasRoom(w.dir[k]))
    ensures HasRoom(Apply(w, move).dir[k]) && Apply(w, move).dir[k].revision <= RouteAt(w.dir, k).revision + 2
  {
    hide CanExpire, ExpireRoute, Begin, FinishRoute, Requeued, NewlyQueued, GivenUp, Inv, NumbersOk, ActiveOk,
         InvalidateRoute, HasRoom;
    if k in w.dir {
      KnownParts(w, k);
    }
    match move
    case BeginMove(m, checked, now) => BeginLeavesRoom(w.dir, m, checked, now, k);
    case ClaimMove(at, now) =>
      if CanExpire(w.dir, now) {
        ExpiresLeaveRoom(w.dir, at, now, k);
      }
    case FinishMove(p, status, proof, identity, generation, now) =>
      if k in w.dir && FinishRoute(w.dir[k], p, status, proof, identity, generation, now).Ok? {
        FinishLeavesRoom(w.dir[k], p, status, proof, identity, generation, now);
      }
    case _ => DeliveryLeavesRoom(w, move, k);
  }

  lemma DeliveryLeavesRoom(w: World, move: Move, k: Key)
    requires Inv(w) && Allowed(w, move) && k in w.dir && HasRoom(w.dir[k])
    requires !move.BeginMove? && !move.ClaimMove? && !move.FinishMove?
    ensures k in Apply(w, move).dir
    ensures HasRoom(Apply(w, move).dir[k]) && Apply(w, move).dir[k].revision == w.dir[k].revision
  {
    hide GivenUp, Inv, NumbersOk, ActiveOk, InvalidateRoute, HasRoom;
    KnownParts(w, k);
    match move
    case SendMove(j, g, now) =>
      if j == k {
        ResentLeavesRoom(w.dir[k], g, w.dir[k].updates[g].(nextPoll := now + 10));
      }
    case ReceiptMove(u, status, receipt) =>
      if k == UpdateKey(u) && Settles(w.dir, u) {
        SettledLeavesRoom(w.dir[k], u.selection.generation);
      }
    case InvalidateMove(s) => InvalidateLeavesRoom(k, w.dir[k], s, w.queued[k], w.used);
    case NotifyMove(j, now) => SameRoom(w.dir[k], Notified(w.dir, j, now)[k]);
    case HubMove(_) =>
  }

  lemma ExpiresLeaveRoom(d: Directory, at: Option<Key>, now: int, k: Key)
    requires CanExpire(d, now) && k in d && HasRoom(d[k]) && d[k].recipient != "" && d[k].routeKey != ""
    requires at.Some? ==> at.value in d && ExpireAll(d, now)[at.value].pending.Some?
    ensures var after := (if at.Some? then Polled(ExpireAll(d, now), at.value, now) else ExpireAll(d, now))[k];
            HasRoom(after) && after.revision <= d[k].revision + 2
  {
    hide ExpireRoute;
    ExpireLeavesRoom(d[k], now);
  }

  lemma SameRoom(a: Route, b: Route)
    requires HasRoom(a) && b.active == a.active && b.updates == a.updates && b.pending.Some? == a.pending.Some?
    ensures HasRoom(b)
  {
  }

  // Whoever waits for a confirmation has room for the update that ends the wait.
  lemma {:induction false} RunLeavesRoom(worlds: seq<World>, moves: seq<Move>, i: nat, k: Key)
    requires IsRun(worlds, moves) && i < |worlds| && k in worlds[i].dir
    ensures HasRoom(worlds[i].dir[k]) && worlds[i].dir[k].revision <= 2 * i
  {
    hide Apply, Allowed, Inv, HasRoom;
    if i > 0 {
      var w := worlds[i - 1];
      RunKeeps(worlds, moves, i - 1);
      if k in w.dir {
        RunLeavesRoom(worlds, moves, i - 1, k);
      }
      MoveLeavesRoom(w, moves[i - 1], k);
    }
  }

  lemma ExpiresUnlessAtTheCap(route: Route, now: int)
    requires HasRoom(route) && route.recipient != "" && route.routeKey != ""
    ensures ExpireRoute(route, now).Ok? <==>
            (route.pending.Some? && route.pending.value.expiresAt <= now && route.active.Some? ==>
               route.revision < MAX_REVISION)
  {
  }

  // In every reachable world the sweep over expired bindings commits, unless a
  // route has used up its revisions.
  lemma ExpiryNeverBlocks(worlds: seq<World>, moves: seq<Move>, i: nat, now: int)
    requires IsRun(worlds, moves) && i < |worlds|
    ensures CanExpire(worlds[i].dir, now) <==>
            forall k :: k in worlds[i].dir && worlds[i].dir[k].pending.Some? && worlds[i].dir[k].active.Some?
                        && worlds[i].dir[k].pending.value.expiresAt <= now ==>
                          worlds[i].dir[k].revision < MAX_REVISION
    ensures 2 * i < MAX_REVISION ==> CanExpire(worlds[i].dir, now)
  {
    hide IsRun, Inv, ExpireRoute, HasRoom;
    var d := worlds[i].dir;
    RunKeeps(worlds, moves, i);
    forall k | k in d
      ensures ExpireRoute(d[k], now).Ok? <==>
              (d[k].pending.Some? && d[k].pending.value.expiresAt <= now && d[k].active.Some? ==>
                 d[k].revision < MAX_REVISION)
      ensures d[k].revision <= 2 * i
    {
      RunLeavesRoom(worlds, moves, i, k);
      KnownParts(worlds[i], k);
      ExpiresUnlessAtTheCap(d[k], now);
    }
  }
}
