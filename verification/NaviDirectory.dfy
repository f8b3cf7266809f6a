// The route directory as the gateway keeps it. A transaction loads the stored
// routes, edits them and stores them; a failing one leaves them as they were.
module NaviDirectory {
  import opened Prelude
  import opened NaviRoutes

  // One route while a transaction edits it.
  class OpenRoute {
    var active: Option<Selection>
    var pending: Option<Pending>
    var seen: map<ProofId, int>
    var newestProofAt: int
    var recipient: string
    var routeKey: string
    var revision: nat
    var updates: map<string, RouteUpdate>
    var notificationNextPoll: int

    constructor (r: Route)
      ensures Value() == r
    {
      active, pending, seen, newestProofAt := r.active, r.pending, r.seen, r.newestProofAt;
      recipient, routeKey, revision := r.recipient, r.routeKey, r.revision;
      updates, notificationNextPoll := r.updates, r.notificationNextPoll;
    }

    function Value(): Route
      reads this
    {
      Route(active, pending, seen, newestProofAt, recipient, routeKey, revision, updates, notificationNextPoll)
    }

    method QueueRouteUpdate(status: RouteStatus, now: int) returns (result: Result<Unit>)
      modifies this
      ensures match QueueUpdate(old(Value()), status, now)
              case Ok(r) => result == Ok(Unit) && Value() == r
              case Err(e) => result == Err(e) && Value() == old(Value())
    {
      if active.None? {
        return Ok(Unit);
      }
      var selection := active.value;
      if recipient == "" || routeKey == "" {
        return Ok(Unit);
      }
      if |updates| >= MAX_UPDATES && selection.generation !in updates {
        return Err("unavailable");
      }
      if revision + 1 > MAX_REVISION {
        return Err("unavailable");
      }
      revision := revision + 1;
      updates := updates[selection.generation :=
        RouteUpdate(selection, recipient, routeKey, revision, status, now, 0)];
      return Ok(Unit);
    }

    method DropDevice(s: Selection)
      modifies this
      ensures Value() == InvalidateRoute(old(Value()), s)
    {
      if active.Some? && SameDevice(active.value, s) {
        active := None;
      }
      if pending.Some? && pending.value.hubId == s.hubId && Pinned(pending.value.hubIdentity, s.hubIdentity) {
        pending := None;
      }
      var kept := map g | g in updates && !SameDevice(updates[g].selection, s) :: updates[g];
      updates := kept;
    }
  }

  class Fleet {
    var routes: Directory

    constructor ()
      ensures routes == map[]
    {
      routes := map[];
    }

    method BeginSwitch(m: Inbound, checked: int, now: int) returns (result: Result<Unit>)
      modifies this
      ensures (routes, result) == Begin(old(routes), m, checked, now)
    {
      hide ValidHubId, AllHex, ProofOf;
      if !ProofShape(m) || m.timestamp.value <= checked - 300 || m.timestamp.value > checked + 60 {
        return Err("denied");
      }
      if |routes| >= MAX_ROUTES && KeyOf(m) !in routes {
        return Err("unavailable");
      }
      var route := new OpenRoute(if KeyOf(m) in routes then routes[KeyOf(m)] else NEW_ROUTE);
      route.recipient := m.userId;
      route.routeKey := m.routeKey;
      route.seen := Purge(route.seen, now);
      var id := ProofOf(m.text).value;
      assert route.Value() == Opened(routes, m, now);
      hide Opened;
      if id in route.seen {
        routes := routes[KeyOf(m) := route.Value()];
        return Ok(Unit);
      }
      var occurred := m.timestamp.value;
      if occurred < route.newestProofAt || |route.seen| >= MAX_SEEN {
        return Err("denied");
      }
      route.seen := route.seen[id := occurred + 360];
      route.newestProofAt := occurred;
      route.pending := Some(NewPending(m, now));
      assert route.Value() == WithProof(Opened(routes, m, now), m, now);
      hide WithProof, NewPending, ProofShape;
      var queued := route.QueueRouteUpdate(Paused, now);
      if queued.Err? {
        return Err(queued.error);
      }
      routes := routes[KeyOf(m) := route.Value()];
      return Ok(Unit);
    }

    // Expired bindings are dropped everywhere, then the due one polled least
    // recently is handed out.
    method ClaimPending(now: int) returns (result: Result<Option<Pending>>)
      modifies this
      ensures result.Err? <==> !CanExpire(old(routes), now)
      ensures result.Err? ==> routes == old(routes)
      ensures result == Ok(None) ==>
                routes == ExpireAll(old(routes), now) && forall k :: k in routes ==> !DuePending(routes[k], now)
      ensures result.Ok? && result.value.Some? ==>
                var d := ExpireAll(old(routes), now);
                exists k :: NextPending(d, k, now) && routes == Polled(d, k, now)
                            && result.value == routes[k].pending
    {
      var open := routes;
      var rest := routes.Keys;
      while rest != {}
        invariant rest <= routes.Keys && open.Keys == routes.Keys && routes == old(routes)
        invariant forall k :: k in rest ==> open[k] == routes[k]
        invariant forall k :: k in routes && k !in rest ==> ExpireRoute(routes[k], now) == Ok(open[k])
      {
        var k :| k in rest;
        rest := rest - {k};
        if open[k].pending.Some? && open[k].pending.value.expiresAt <= now {
          var route := new OpenRoute(open[k]);
          route.pending := None;
          var queued := route.QueueRouteUpdate(Active, now);
          if queued.Err? {
            assert ExpireRoute(routes[k], now).Err?;
            return Err(queued.error);
          }
          open := open[k := route.Value()];
        }
      }
      assert open == ExpireAll(routes, now);
      var best: Option<Key> := None;
      rest := open.Keys;
      while rest != {}
        invariant rest <= open.Keys
        invariant best.None? ==> forall j :: j in open && j !in rest ==> !DuePending(open[j], now)
        invariant best.Some? ==> best.value in open && DuePending(open[best.value], now)
        invariant best.Some? ==> forall j :: j in open && j !in rest && DuePending(open[j], now) ==>
                                               open[best.value].pending.value.nextPoll <= open[j].pending.value.nextPoll
      {
        var k :| k in rest;
        rest := rest - {k};
        if DuePending(open[k], now)
           && (best.None? || open[k].pending.value.nextPoll < open[best.value].pending.value.nextPoll) {
          best := Some(k);
        }
      }
      if best.None? {
        routes := open;
        return Ok(None);
      }
      assert NextPending(open, best.value, now);
      routes := Polled(open, best.value, now);
      return Ok(routes[best.value].pending);
    }

    method FinishPending(p: Pending, status: nat, proof: Proof, identity: string, generation: string, now: int)
      returns (result: Result<Unit>)
      modifies this
      ensures (routes, result) == Finish(old(routes), p, status, proof, identity, generation, now)
    {
      var k := Key(p.recipient, p.routeKey);
      if k !in routes {
        return Err("unavailable");
      }
      var route := new OpenRoute(routes[k]);
      if route.pending.None? || route.pending.value.id != p.id {
        assert routes[k := routes[k]] == routes;
        return Ok(Unit);
      }
      var current := route.pending.value;
      if current.expiresAt <= now || Refusal(status) {
        route.pending := None;
        result := route.QueueRouteUpdate(Active, now);
        if result.Ok? {
          routes := routes[k := route.Value()];
        }
        return;
      }
      if !ProofAccepted(current, status, proof, identity, now) {
        return Err("unavailable");
      }
      current := current.(hubIdentity := Some(identity), sessionId := proof.sessionId);
      current := current.(expiresAt := Min(current.expiresAt, proof.expiresAt.value));
      route.pending := Some(current);
      if proof.status == Some("awaiting_owner_confirmation") {
        route.pending := Some(current.(nextPoll := now + 1));
        routes := routes[k := route.Value()];
        return Ok(Unit);
      }
      if !Bound(current, proof, now) {
        return Err("unavailable");
      }
      result := route.QueueRouteUpdate(Retired, now);
      if result.Err? {
        return;
      }
      route.active := Some(Selection(p.hubId, identity, proof.sessionId.value, generation, now));
      route.pending := None;
      result := route.QueueRouteUpdate(Active, now);
      if result.Ok? {
        routes := routes[k := route.Value()];
      }
    }

    method ClaimRouteUpdate(now: int) returns (result: Option<RouteUpdate>)
      modifies this
      ensures result.None? ==> routes == old(routes) && forall k, g :: !DueUpdate(routes, k, g, now)
      ensures result.Some? ==>
                exists k, g :: NextUpdate(old(routes), k, g, now) && routes == Sent(old(routes), k, g, now)
                               && result.value == routes[k].updates[g]
    {
      var best: Option<(Key, string)> := None;
      var rest := set k, g | k in routes && g in routes[k].updates :: (k, g);
      while rest != {}
        invariant forall k, g :: (k, g) in rest ==> k in routes && g in routes[k].updates
        invariant best.None? ==> forall k, g :: DueUpdate(routes, k, g, now) ==> (k, g) in rest
        invariant best.Some? ==> DueUpdate(routes, best.value.0, best.value.1, now)
        invariant best.Some? ==> forall k, g :: DueUpdate(routes, k, g, now) && (k, g) !in rest ==>
                                                  routes[best.value.0].updates[best.value.1].nextPoll
                                                  <= routes[k].updates[g].nextPoll
      {
        var at :| at in rest;
        rest := rest - {at};
        if DueUpdate(routes, at.0, at.1, now)
           && (best.None? || routes[at.0].updates[at.1].nextPoll
                             < routes[best.value.0].updates[best.value.1].nextPoll) {
          best := Some(at);
        }
      }
      if best.None? {
        return None;
      }
      var (k, g) := best.value;
      assert NextUpdate(routes, k, g, now);
      routes := Sent(routes, k, g, now);
      return Some(routes[k].updates[g]);
    }

    method FinishRouteUpdate(u: RouteUpdate, status: nat, receipt: Receipt) returns (result: Result<Unit>)
      modifies this
      ensures (routes, result) == FinishUpdate(old(routes), u, status, receipt)
    {
      var k := Key(u.recipient, u.routeKey);
      if k !in routes {
        return Ok(Unit);
      }
      var route := new OpenRoute(routes[k]);
      if u.selection.generation !in route.updates {
        return Ok(Unit);
      }
      if route.updates[u.selection.generation].revision != u.revision {
        return Ok(Unit);
      }
      if status == 200 {
        if !Confirms(receipt, u) {
          return Err("unavailable");
        }
      } else if status != 403 && status != 410 {
        return Err("unavailable");
      }
      route.updates := route.updates - {u.selection.generation};
      routes := routes[k := route.Value()];
      return Ok(Unit);
    }

    method SelectRoute(m: Inbound, now: int) returns (result: Result<Selection>)
      ensures result == Select(routes, m, now)
    {
      if KeyOf(m) !in routes {
        return Err("denied");
      }
      var route := routes[KeyOf(m)];
      if route.pending.Some? && route.pending.value.expiresAt > now {
        return Err("unavailable");
      }
      if route.active.None? || m.timestamp.None? {
        return Err("denied");
      }
      var selection, occurred := route.active.value, m.timestamp.value;
      if m.platform != "whatsapp" || m.chatId != m.userId || m.chatType != "p2p"
         || occurred <= selection.selectedAt || occurred > now + 60 {
        return Err("denied");
      }
      return Ok(selection);
    }

    method CheckOutbound(k: Key, carried: Selection, now: int) returns (result: Result<Selection>)
      ensures result == Check(routes, k, carried, now)
    {
      if k !in routes {
        return Err("denied");
      }
      if routes[k].pending.Some? && routes[k].pending.value.expiresAt > now {
        return Err("unavailable");
      }
      if routes[k].active != Some(carried) {
        return Err("denied");
      }
      return Ok(carried);
    }

    method InvalidateIdentity(s: Selection)
      modifies this
      ensures routes == Invalidate(old(routes), s)
    {
      var rest := routes.Keys;
      while rest != {}
        invariant rest <= routes.Keys && routes.Keys == old(routes).Keys
        invariant forall k :: k in rest ==> routes[k] == old(routes)[k]
        invariant forall k :: k in routes && k !in rest ==> routes[k] == InvalidateRoute(old(routes)[k], s)
      {
        var k :| k in rest;
        rest := rest - {k};
        var route := new OpenRoute(routes[k]);
        route.DropDevice(s);
        routes := routes[k := route.Value()];
      }
    }

    method NotificationTarget(now: int) returns (target: Option<Key>)
      modifies this
      ensures target.None? ==> routes == old(routes) && forall k :: k in routes ==> !DueRoute(routes[k], now)
      ensures target.Some? ==> NextRoute(old(routes), target.value, now)
                               && routes == Notified(old(routes), target.value, now)
    {
      target := None;
      var rest := routes.Keys;
      while rest != {}
        invariant rest <= routes.Keys
        invariant target.None? ==> forall j :: j in routes && j !in rest ==> !DueRoute(routes[j], now)
        invariant target.Some? ==> target.value in routes && DueRoute(routes[target.value], now)
        invariant target.Some? ==> forall j :: j in routes && j !in rest && DueRoute(routes[j], now) ==>
                                                 routes[target.value].notificationNextPoll
                                                 <= routes[j].notificationNextPoll
      {
        var k :| k in rest;
        rest := rest - {k};
        if DueRoute(routes[k], now)
           && (target.None? || routes[k].notificationNextPoll < routes[target.value].notificationNextPoll) {
          target := Some(k);
        }
      }
      if target.Some? {
        routes := Notified(routes, target.value, now);
      }
    }
  }
}
