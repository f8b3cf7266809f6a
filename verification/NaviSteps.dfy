// Every move of the world keeps its invariant.
module NaviSteps {
  import opened Prelude
  import opened NaviRoutes
  import opened NaviWorld
  import opened NaviProofs

  // ------------------------------------------------------- one route at a time

  lemma Widen(k: Key, before: Route, after: Route, q: map<string, RouteUpdate>, dropped: set<(Key, string)>,
              used: set<string>, more: set<string>, hubs: map<Selection, RouteUpdate>)
    requires Follows(k, before, after, q, dropped, used, used, hubs) && used <= more
    ensures Follows(k, before, after, q, dropped, used, more, hubs)
  {
    hide NewlyQueued, NewKeys, Extends, StatusOk, DeliveryOk, ActiveOk;
  }

  lemma OthersStay(w: World, used: set<string>)
    requires Inv(w) && w.used <= used
    ensures forall k :: k in w.dir ==>
                          Follows(k, RouteAt(w.dir, k), w.dir[k], QueuedOf(w, k), w.dropped, w.used, used, w.hubs)
    ensures forall k :: k in w.dir ==> NewlyQueued(RouteAt(w.dir, k), w.dir[k]) == map[]
  {
    hide Follows, NewlyQueued, NumbersOk, StatusOk, DeliveryOk, ActiveOk;
    forall k | k in w.dir
      ensures Follows(k, RouteAt(w.dir, k), w.dir[k], QueuedOf(w, k), w.dropped, w.used, used, w.hubs)
      ensures NewlyQueued(RouteAt(w.dir, k), w.dir[k]) == map[]
    {
      KnownNumbers(k, w.dir[k], w.queued[k], w.used);
      QuietIsEmpty(k, w.dir[k], w.dir[k], w.queued[k], w.used);
      QuietKeeps(k, w.dir[k], w.dir[k], w.queued[k], w.dropped, w.used, w.hubs);
      Widen(k, w.dir[k], w.dir[k], w.queued[k], w.dropped, w.used, used, w.hubs);
    }
  }

  // A transaction that stores one route.
  lemma OneKeeps(w: World, k: Key, after: Route, now: int, used: set<string>)
    requires Inv(w) && w.used <= used
    requires Follows(k, RouteAt(w.dir, k), after, QueuedOf(w, k), w.dropped, w.used, used, w.hubs)
    ensures Inv(Stored(w, w.dir[k := after], now).(used := used))
            && Grows(w, Stored(w, w.dir[k := after], now).(used := used))
  {
    hide Inv, Grows, Follows, NewlyQueued;
    OthersStay(w, used);
    StoredKeeps(w, w.dir[k := after], now, used);
  }

  // A transaction that stores nothing.
  lemma NoneKeeps(w: World, now: int, used: set<string>)
    requires Inv(w) && w.used <= used
    ensures Inv(Stored(w, w.dir, now).(used := used)) && Grows(w, Stored(w, w.dir, now).(used := used))
  {
    hide Inv, Grows, Follows, NewlyQueued;
    OthersStay(w, used);
    StoredKeeps(w, w.dir, now, used);
  }

  // --------------------------------------------------------------------- begin

  // The first route stored under a key has nothing to announce.
  lemma FirstRouteKeeps(k: Key, after: Route, dropped: set<(Key, string)>, used: set<string>,
                        hubs: map<Selection, RouteUpdate>)
    requires after.recipient == k.recipient != "" && after.routeKey == k.routeKey != ""
    requires after.active.None? && after.updates == map[]
    ensures Follows(k, NEW_ROUTE, after, map[], dropped, used, used, hubs)
  {
    assert NewlyQueued(NEW_ROUTE, after) == map[];
    assert NewKeys(k, NEW_ROUTE, after) == {};
  }

  lemma BeginRoute(w: World, m: Inbound, now: int)
    requires Inv(w) && ProofShape(m)
    ensures var k := KeyOf(m);
            var route := Opened(w.dir, m, now);
            && (k in w.dir ==> Follows(k, RouteAt(w.dir, k), route, QueuedOf(w, k), w.dropped, w.used, w.used, w.hubs))
            && (QueueUpdate(WithProof(route, m, now), Paused, now).Ok? ==>
                  Follows(k, RouteAt(w.dir, k), QueueUpdate(WithProof(route, m, now), Paused, now).value,
                          QueuedOf(w, k), w.dropped, w.used, w.used, w.hubs))
  {
    hide Follows, NumbersOk, StatusOk, DeliveryOk, ActiveOk, ProofShape, RouteOk, Purge;
    var k := KeyOf(m);
    var route := Opened(w.dir, m, now);
    ProofNamesARoute(m);
    if k in w.dir {
      QuietKeeps(k, w.dir[k], route, w.queued[k], w.dropped, w.used, w.hubs);
      if QueueUpdate(WithProof(route, m, now), Paused, now).Ok? {
        QueueKeeps(k, w.dir[k], WithProof(route, m, now), Paused, now, w.queued[k], w.dropped, w.used, w.hubs);
      }
    } else {
      FirstRouteKeeps(k, WithProof(route, m, now), w.dropped, w.used, w.hubs);
    }
  }

  lemma ProofNamesARoute(m: Inbound)
    requires ProofShape(m)
    ensures m.userId != "" && m.routeKey != ""
  {
  }

  lemma BeginKeeps(w: World, m: Inbound, checked: int, now: int)
    requires Inv(w)
    ensures Inv(Stored(w, Begin(w.dir, m, checked, now).0, now))
            && Grows(w, Stored(w, Begin(w.dir, m, checked, now).0, now))
  {
    hide Inv, Grows, Follows, Stored, QueueUpdate, WithProof, Opened, ProofShape;
    NoneKeeps(w, now, w.used);
    if ProofShape(m) {
      BeginRoute(w, m, now);
      var k := KeyOf(m);
      var route := Opened(w.dir, m, now);
      NothingSeenYet(w.dir, m, now);
      if k in w.dir {
        OneKeeps(w, k, route, now, w.used);
      }
      if QueueUpdate(WithProof(route, m, now), Paused, now).Ok? {
        OneKeeps(w, k, QueueUpdate(WithProof(route, m, now), Paused, now).value, now, w.used);
      }
    }
    StoredUsed(w, Begin(w.dir, m, checked, now).0, now);
  }

  lemma NothingSeenYet(d: Directory, m: Inbound, now: int)
    ensures KeyOf(m) !in d ==> Opened(d, m, now).seen == map[]
  {
  }

  lemma StoredUsed(w: World, dir: Directory, now: int)
    ensures Stored(w, dir, now).(used := w.used) == Stored(w, dir, now)
  {
  }

  // -------------------------------------------------------------- claim, finish

  lemma ExpireFollows(k: Key, route: Route, now: int, q: map<string, RouteUpdate>, dropped: set<(Key, string)>,
                      used: set<string>, hubs: map<Selection, RouteUpdate>)
    requires RouteOk(k, route, q, dropped, used, hubs) && ExpireRoute(route, now).Ok?
    ensures Follows(k, route, ExpireRoute(route, now).value, q, dropped, used, used, hubs)
    ensures ExpireRoute(route, now).value.pending.Some? ==> ExpireRoute(route, now).value == route
  {
    hide Follows, StatusOk, DeliveryOk, ActiveOk;
    if route.pending.Some? && route.pending.value.expiresAt <= now {
      QueueKeeps(k, route, route.(pending := None), Active, now, q, dropped, used, hubs);
    } else {
      QuietKeeps(k, route, route, q, dropped, used, hubs);
    }
  }

  lemma NewIsUsed(k: Key, before: Route, after: Route, q: map<string, RouteUpdate>, dropped: set<(Key, string)>,
                  used: set<string>, hubs: map<Selection, RouteUpdate>)
    requires Follows(k, before, after, q, dropped, used, used, hubs)
    ensures forall g :: g in NewlyQueued(before, after) ==> g in used
  {
    hide NewlyQueued, NewKeys, Extends, StatusOk, DeliveryOk, ActiveOk;
  }

  lemma PolledFollows(w: World, at: Option<Key>, now: int, k: Key)
    requires Inv(w) && CanExpire(w.dir, now) && k in w.dir
    requires at.Some? ==> at.value in w.dir && ExpireAll(w.dir, now)[at.value].pending.Some?
    ensures var all := ExpireAll(w.dir, now);
            var dir := if at.Some? then Polled(all, at.value, now) else all;
            Follows(k, RouteAt(w.dir, k), dir[k], QueuedOf(w, k), w.dropped, w.used, w.used, w.hubs)
  {
    hide Follows, NumbersOk, StatusOk, DeliveryOk, ActiveOk, ExpireRoute, RouteOk;
    ExpireFollows(k, w.dir[k], now, w.queued[k], w.dropped, w.used, w.hubs);
    var all := ExpireAll(w.dir, now);
    if at == Some(k) {
      KnownRoute(k, w.dir[k], w.queued[k], w.dropped, w.used, w.hubs);
      QuietKeeps(k, w.dir[k], Polled(all, k, now)[k], w.queued[k], w.dropped, w.used, w.hubs);
    }
  }

  lemma KnownRoute(k: Key, route: Route, q: map<string, RouteUpdate>, dropped: set<(Key, string)>, used: set<string>,
                   hubs: map<Selection, RouteUpdate>)
    requires RouteOk(k, route, q, dropped, used, hubs)
    ensures route.recipient == k.recipient && route.routeKey == k.routeKey
  {
    hide StatusOk, DeliveryOk, ActiveOk;
  }

  lemma ClaimKeeps(w: World, at: Option<Key>, now: int)
    requires Inv(w) && Allowed(w, ClaimMove(at, now))
    ensures Inv(Apply(w, ClaimMove(at, now))) && Grows(w, Apply(w, ClaimMove(at, now)))
  {
    hide Inv, Grows, Stored, CanExpire, ExpireAll;
    if !CanExpire(w.dir, now) {
      ClockKeeps(w, now);
    } else {
      var all := ExpireAll(w.dir, now);
      var dir := if at.Some? then Polled(all, at.value, now) else all;
      ClaimStores(w, at, now, dir);
      StoredUsed(w, dir, now);
    }
  }

  lemma ClockKeeps(w: World, now: int)
    requires Inv(w)
    ensures Inv(w.(clock := now)) && Grows(w, w.(clock := now))
  {
    hide RouteOk, NoNewer;
  }

  lemma ClaimStores(w: World, at: Option<Key>, now: int, dir: Directory)
    requires Inv(w) && CanExpire(w.dir, now)
    requires at.Some? ==> NextPending(ExpireAll(w.dir, now), at.value, now)
    requires dir == if at.Some? then Polled(ExpireAll(w.dir, now), at.value, now) else ExpireAll(w.dir, now)
    ensures Inv(Stored(w, dir, now).(used := w.used)) && Grows(w, Stored(w, dir, now).(used := w.used))
  {
    hide Inv, Grows, Follows, NewlyQueued, CanExpire;
    forall k | k in dir
      ensures Follows(k, RouteAt(w.dir, k), dir[k], QueuedOf(w, k), w.dropped, w.used, w.used, w.hubs)
      ensures forall g :: g in NewlyQueued(RouteAt(w.dir, k), dir[k]) ==> g in w.used
    {
      PolledFollows(w, at, now, k);
      NewIsUsed(k, RouteAt(w.dir, k), dir[k], QueuedOf(w, k), w.dropped, w.used, w.hubs);
    }
    StoredKeeps(w, dir, now, w.used);
  }

  lemma FinishFollows(k: Key, route: Route, p: Pending, status: nat, proof: Proof, identity: string, generation: string,
                      now: int, q: map<string, RouteUpdate>, dropped: set<(Key, string)>, used: set<string>,
                      hubs: map<Selection, RouteUpdate>)
    requires RouteOk(k, route, q, dropped, used, hubs) && generation !in used
    requires FinishRoute(route, p, status, proof, identity, generation, now).Ok?
    ensures Follows(k, route, FinishRoute(route, p, status, proof, identity, generation, now).value, q, dropped, used,
                    used + {generation}, hubs)
  {
    hide Follows, RouteOk, QueueUpdate, Switch, Bound, Refusal, ValidProofId, AllHex;
    KnownRoute(k, route, q, dropped, used, hubs);
    var after := FinishRoute(route, p, status, proof, identity, generation, now).value;
    if route.pending.None? || route.pending.value.id != p.id {
      QuietKeeps(k, route, after, q, dropped, used, hubs);
      Widen(k, route, after, q, dropped, used, used + {generation}, hubs);
    } else if route.pending.value.expiresAt <= now || Refusal(status) {
      QueueKeeps(k, route, route.(pending := None), Active, now, q, dropped, used, hubs);
      Widen(k, route, after, q, dropped, used, used + {generation}, hubs);
    } else if proof.status == Some("awaiting_owner_confirmation") {
      QuietKeeps(k, route, after, q, dropped, used, hubs);
      Widen(k, route, after, q, dropped, used, used + {generation}, hubs);
    } else {
      var refreshed := Refreshed(route.pending.value, proof, identity);
      SwitchKeeps(k, route, route.(pending := Some(refreshed)),
                  Selection(p.hubId, identity, proof.sessionId.value, generation, now), now, q, dropped, used, hubs);
    }
  }

  lemma FinishKeeps(w: World, p: Pending, status: nat, proof: Proof, identity: string, generation: string, now: int)
    requires Inv(w) && generation !in w.used
    ensures var x := Stored(w, Finish(w.dir, p, status, proof, identity, generation, now).0, now)
                     .(used := w.used + {generation});
            Inv(x) && Grows(w, x)
  {
    hide Follows, Grows, Stored, FinishRoute, RouteOk;
    var k := Key(p.recipient, p.routeKey);
    NoneKeeps(w, now, w.used + {generation});
    if k in w.dir {
      var r := FinishRoute(w.dir[k], p, status, proof, identity, generation, now);
      if r.Ok? {
        FinishFollows(k, w.dir[k], p, status, proof, identity, generation, now, w.queued[k], w.dropped, w.used, w.hubs);
        OneKeeps(w, k, r.value, now, w.used + {generation});
      }
    }
  }

  // ------------------------------------------------------- updates on their way

  lemma ResentRouteOk(k: Key, route: Route, g: string, poll: int, q: map<string, RouteUpdate>,
                      dropped: set<(Key, string)>, used: set<string>, hubs: map<Selection, RouteUpdate>)
    requires RouteOk(k, route, q, dropped, used, hubs) && g in route.updates
    ensures var u := route.updates[g].(nextPoll := poll);
            RouteOk(k, route.(updates := route.updates[g := u]), q, dropped, used, hubs)
            && UpdateKey(u) == k && NoNewer(u, q)
  {
    var u := route.updates[g].(nextPoll := poll);
    assert route.updates[g := u].Keys == route.updates.Keys;
    assert |route.updates[g := u]| == |route.updates[g := u].Keys| == |route.updates|;
  }

  lemma SendKeeps(w: World, k: Key, g: string, now: int)
    requires Inv(w) && k in w.dir && g in w.dir[k].updates
    ensures var dir := Sent(w.dir, k, g, now);
            Inv(w.(clock := now, dir := dir, sent := w.sent + {dir[k].updates[g]}))
  {
    hide RouteOk, NoNewer;
    ResentRouteOk(k, w.dir[k], g, now + 10, w.queued[k], w.dropped, w.used, w.hubs);
  }

  // Whatever was sent for a generation belongs to the one route that queued it.
  lemma SentBelongs(w: World, u: RouteUpdate, k: Key)
    requires Inv(w) && u in w.sent && k in w.queued && u.selection.generation in w.queued[k]
    ensures UpdateKey(u) == k && NoNewer(u, w.queued[k])
  {
    hide RouteOk;
  }

  lemma HubRouteOk(w: World, u: RouteUpdate, k: Key, hubs: map<Selection, RouteUpdate>)
    requires Inv(w) && u in w.sent && k in w.dir
    requires u.selection in w.hubs ==> w.hubs[u.selection].revision < u.revision
    requires hubs == w.hubs[u.selection := u]
    ensures RouteOk(k, w.dir[k], w.queued[k], w.dropped, w.used, hubs)
  {
    hide NumbersOk, StatusOk, ActiveOk;
    var q := w.queued[k];
    forall g | g in q && (k, g) !in w.dropped
      ensures g in w.dir[k].updates || Held(q[g], hubs)
    {
      if Held(q[g], w.hubs) && q[g].selection == u.selection {
        QueuedUnder(k, w.dir[k], q, w.used, g);
        SentBelongs(w, u, k);
      }
    }
  }

  lemma QueuedUnder(k: Key, route: Route, q: map<string, RouteUpdate>, used: set<string>, g: string)
    requires NumbersOk(k, route, q, used) && g in q
    ensures q[g].selection.generation == g && UpdateKey(q[g]) == k
  {
  }

  lemma HubKeeps(w: World, u: RouteUpdate)
    requires Inv(w) && u in w.sent
    ensures Inv(Processed(w, u))
  {
    hide RouteOk, NoNewer;
    if !(u.selection in w.hubs && w.hubs[u.selection].revision >= u.revision) {
      forall k | k in w.dir
        ensures RouteOk(k, w.dir[k], w.queued[k], w.dropped, w.used, w.hubs[u.selection := u])
      {
        HubRouteOk(w, u, k, w.hubs[u.selection := u]);
      }
    }
  }

  // A confirmed update that is still on record is exactly what the hub holds.
  lemma ConfirmedIsHeld(w: World, u: RouteUpdate)
    requires Inv(w) && u in w.received && u in w.sent && Settles(w.dir, u)
    ensures var k := UpdateKey(u);
            var g := u.selection.generation;
            k in w.queued && g in w.queued[k] && Held(w.queued[k][g], w.hubs)
  {
    hide StatusOk, DeliveryOk, ActiveOk;
    var k := UpdateKey(u);
    assert RouteOk(k, w.dir[k], w.queued[k], w.dropped, w.used, w.hubs);
    SentBelongs(w, w.hubs[u.selection], k);
    SentBelongs(w, u, k);
  }

  lemma SettledRouteOk(k: Key, route: Route, g: string, q: map<string, RouteUpdate>, dropped: set<(Key, string)>,
                       used: set<string>, hubs: map<Selection, RouteUpdate>)
    requires RouteOk(k, route, q, dropped, used, hubs) && g in route.updates
    requires (k, g) in dropped || Held(q[g], hubs)
    ensures RouteOk(k, route.(updates := route.updates - {g}), q, dropped, used, hubs)
  {
    assert (route.updates - {g}).Keys == route.updates.Keys - {g};
    assert |route.updates - {g}| == |(route.updates - {g}).Keys| == |route.updates.Keys| - 1;
  }

  lemma DroppingKeepsRoute(k: Key, route: Route, q: map<string, RouteUpdate>, dropped: set<(Key, string)>,
                           more: set<(Key, string)>, used: set<string>, hubs: map<Selection, RouteUpdate>)
    requires RouteOk(k, route, q, dropped, used, hubs) && dropped <= more
    ensures RouteOk(k, route, q, more, used, hubs)
  {
    hide NumbersOk, ActiveOk;
  }

  lemma ReceiptKeeps(w: World, u: RouteUpdate, status: nat, receipt: Receipt)
    requires Inv(w) && Allowed(w, ReceiptMove(u, status, receipt))
    ensures Inv(Answered(w, u, status, receipt))
  {
    hide RouteOk, NoNewer;
    var k := UpdateKey(u);
    var g := u.selection.generation;
    if FinishUpdate(w.dir, u, status, receipt).1.Ok? && Settles(w.dir, u) {
      var more := if status != 200 then w.dropped + {(k, g)} else w.dropped;
      if status == 200 {
        ConfirmedIsHeld(w, u);
      }
      forall j | j in w.dir
        ensures RouteOk(j, w.dir[j], w.queued[j], more, w.used, w.hubs)
      {
        DroppingKeepsRoute(j, w.dir[j], w.queued[j], w.dropped, more, w.used, w.hubs);
      }
      SettledRouteOk(k, w.dir[k], g, w.queued[k], more, w.used, w.hubs);
    }
  }

  // ----------------------------------------------------- revocation, notification

  lemma FewerUpdates(m: map<string, RouteUpdate>, s: Selection)
    ensures |(map g | g in m && !SameDevice(m[g].selection, s) :: m[g])| <= |m|
  {
    var n := map g | g in m && !SameDevice(m[g].selection, s) :: m[g];
    assert n.Keys <= m.Keys;
    SubsetIsSmaller(n.Keys, m.Keys);
    assert |n| == |n.Keys| && |m| == |m.Keys|;
  }

  lemma InvalidateRouteOk(k: Key, route: Route, s: Selection, q: map<string, RouteUpdate>, dropped: set<(Key, string)>,
                          more: set<(Key, string)>, used: set<string>, hubs: map<Selection, RouteUpdate>)
    requires RouteOk(k, route, q, dropped, used, hubs) && dropped <= more
    requires forall g :: g in q && (SameDevice(q[g].selection, s)
                                    || (DropsPending(route, s) && route.active.Some?
                                        && route.active.value.generation == g)) ==>
                           (k, g) in more
    ensures RouteOk(k, InvalidateRoute(route, s), q, more, used, hubs)
  {
    FewerUpdates(route.updates, s);
    var after := InvalidateRoute(route, s);
    InvalidateStatus(k, route, s, q, dropped, more);
    assert NumbersOk(k, after, q, used);
  }

  lemma InvalidateStatus(k: Key, route: Route, s: Selection, q: map<string, RouteUpdate>, dropped: set<(Key, string)>,
                         more: set<(Key, string)>)
    requires ActiveOk(route, q) && StatusOk(k, route, q, dropped) && dropped <= more
    requires forall g :: g in q && (SameDevice(q[g].selection, s)
                                    || (DropsPending(route, s) && route.active.Some?
                                        && route.active.value.generation == g)) ==>
                           (k, g) in more
    ensures StatusOk(k, InvalidateRoute(route, s), q, more) && ActiveOk(InvalidateRoute(route, s), q)
  {
  }

  lemma InvalidateKeeps(w: World, s: Selection)
    requires Inv(w)
    ensures Inv(Withdrawn(w, s))
  {
    hide RouteOk, NoNewer, InvalidateRoute;
    var dir := Invalidate(w.dir, s);
    forall k | k in dir
      ensures RouteOk(k, dir[k], w.queued[k], w.dropped + GivenUp(w, s), w.used, w.hubs)
    {
      InvalidateRouteOk(k, w.dir[k], s, w.queued[k], w.dropped, w.dropped + GivenUp(w, s), w.used, w.hubs);
    }
  }

  lemma NotifiedRouteOk(k: Key, route: Route, poll: int, q: map<string, RouteUpdate>, dropped: set<(Key, string)>,
                        used: set<string>, hubs: map<Selection, RouteUpdate>)
    requires RouteOk(k, route, q, dropped, used, hubs)
    ensures RouteOk(k, route.(notificationNextPoll := poll), q, dropped, used, hubs)
  {
  }

  lemma NotifyKeeps(w: World, k: Key, now: int)
    requires Inv(w) && k in w.dir
    ensures Inv(w.(clock := now, dir := Notified(w.dir, k, now)))
  {
    hide RouteOk, NoNewer;
    NotifiedRouteOk(k, w.dir[k], now + 15, w.queued[k], w.dropped, w.used, w.hubs);
  }

  // ------------------------------------------------------------------- every run

  lemma MoveKeeps(w: World, move: Move)
    requires Inv(w) && Allowed(w, move)
    ensures Inv(Apply(w, move)) && Grows(w, Apply(w, move))
  {
    hide Inv, Grows, Stored, Processed, Invalidate, GivenUp, Notified, ExpireAll, CanExpire, Polled, Begin, Finish,
         FinishUpdate;
    match move
    case BeginMove(m, checked, now) => BeginKeeps(w, m, checked, now);
    case ClaimMove(at, now) => ClaimKeeps(w, at, now);
    case FinishMove(p, status, proof, identity, generation, now) =>
      FinishKeeps(w, p, status, proof, identity, generation, now);
    case SendMove(k, g, now) => SendKeeps(w, k, g, now); SameLogGrows(w, Apply(w, move));
    case HubMove(u) => HubKeeps(w, u); ProcessedLog(w, u); SameLogGrows(w, Apply(w, move));
    case ReceiptMove(u, status, receipt) => ReceiptKeeps(w, u, status, receipt); SameLogGrows(w, Apply(w, move));
    case InvalidateMove(s) => InvalidateKeeps(w, s); SameLogGrows(w, Apply(w, move));
    case NotifyMove(k, now) => NotifyKeeps(w, k, now); SameLogGrows(w, Apply(w, move));
  }

  lemma SameLogGrows(w: World, x: World)
    requires Inv(w) && x.queued == w.queued
    ensures Grows(w, x)
  {
    hide RouteOk, NoNewer;
  }

  lemma ProcessedLog(w: World, u: RouteUpdate)
    ensures Processed(w, u).queued == w.queued
  {
  }

  lemma {:induction false} RunKeeps(worlds: seq<World>, moves: seq<Move>, i: nat)
    requires IsRun(worlds, moves) && i < |worlds|
    ensures Inv(worlds[i])
  {
    if i > 0 {
      RunKeeps(worlds, moves, i - 1);
      MoveKeeps(worlds[i - 1], moves[i - 1]);
    }
  }
}
