// Every move of the world keeps the hubs' picture of the selections convergent.
module NaviProofs {
  import opened Prelude
  import opened NaviRoutes
  import opened NaviWorld

  // ------------------------------------------------------ queueing one update

  function NewKeys(k: Key, before: Route, after: Route): set<(Key, string)> {
    set g | g in NewlyQueued(before, after) :: (k, g)
  }

  // The log of queued updates grew: entries changed only to newer revisions.
  predicate Extends(q: map<string, RouteUpdate>, r: map<string, RouteUpdate>, revision: nat) {
    && (forall g :: g in q ==>
                      g in r && (r[g] == q[g] || (r[g].revision > revision && r[g].selection == q[g].selection)))
    && (forall g :: g in r && g !in q ==> r[g].revision > revision)
  }

  lemma OldNumbers(k: Key, route: Route, q: map<string, RouteUpdate>, used: set<string>)
    requires NumbersOk(k, route, q, used)
    ensures Numbered(route)
  {
  }

  predicate Numbered(route: Route) {
    forall g :: g in route.updates ==> route.updates[g].revision <= route.revision
  }

  // `u` is the update that queueing adds to the route.
  predicate Adds(k: Key, route: Route, after: Route, u: RouteUpdate) {
    && after.recipient == k.recipient && after.routeKey == k.routeKey
    && UpdateKey(u) == k
    && u.revision == route.revision + 1 && after.revision == u.revision
    && after.updates == route.updates[u.selection.generation := u]
    && |after.updates| <= MAX_UPDATES
  }

  lemma QueueAdds(k: Key, route: Route, status: RouteStatus, now: int)
    requires route.recipient == k.recipient && route.routeKey == k.routeKey && k.recipient != "" && k.routeKey != ""
    requires route.active.Some? && QueueUpdate(route, status, now).Ok? && |route.updates| <= MAX_UPDATES
    ensures var after := QueueUpdate(route, status, now).value;
            var u := RouteUpdate(route.active.value, route.recipient, route.routeKey, route.revision + 1, status, now,
                                 0);
            Adds(k, route, after, u) && after == route.(revision := after.revision, updates := after.updates)
  {
    var g := route.active.value.generation;
    var more := route.updates[g := RouteUpdate(route.active.value, route.recipient, route.routeKey, route.revision + 1,
                                               status, now, 0)];
    assert more.Keys == route.updates.Keys + {g};
    if g in route.updates {
      assert more.Keys == route.updates.Keys;
      assert |more| == |more.Keys| == |route.updates.Keys| == |route.updates|;
    } else {
      assert |more| == |more.Keys| == |route.updates.Keys| + 1;
    }
  }

  lemma AddKeepsNumbers(k: Key, route: Route, after: Route, u: RouteUpdate, q: map<string, RouteUpdate>,
                        used: set<string>)
    requires NumbersOk(k, route, q, used) && Adds(k, route, after, u)
    ensures NumbersOk(k, after, q[u.selection.generation := u], used + {u.selection.generation})
  {
  }

  lemma AddKeepsDelivery(k: Key, route: Route, after: Route, u: RouteUpdate, q: map<string, RouteUpdate>,
                         dropped: set<(Key, string)>, hubs: map<Selection, RouteUpdate>)
    requires DeliveryOk(k, route, q, dropped, hubs) && Adds(k, route, after, u)
    ensures DeliveryOk(k, after, q[u.selection.generation := u], dropped - {(k, u.selection.generation)}, hubs)
  {
  }

  lemma OneNew(k: Key, before: Route, after: Route, u: RouteUpdate, q: map<string, RouteUpdate>)
    requires Numbered(before) && Adds(k, before, after, u)
    ensures NewlyQueued(before, after) == map[u.selection.generation := u]
    ensures NewKeys(k, before, after) == {(k, u.selection.generation)}
    ensures q + NewlyQueued(before, after) == q[u.selection.generation := u]
    ensures (u.selection.generation in q ==> q[u.selection.generation].selection == u.selection) ==>
              Extends(q, q + NewlyQueued(before, after), before.revision)
  {
    OneIsNewest(before, after, u, k);
    assert q + map[u.selection.generation := u] == q[u.selection.generation := u];
  }

  lemma OneIsNewest(before: Route, after: Route, u: RouteUpdate, k: Key)
    requires Numbered(before) && Adds(k, before, after, u)
    ensures NewlyQueued(before, after) == map[u.selection.generation := u]
    ensures NewKeys(k, before, after) == {(k, u.selection.generation)}
  {
    var g := u.selection.generation;
    assert forall h :: h in NewlyQueued(before, after) <==> h == g;
    assert NewlyQueued(before, after) == map[g := u];
    assert NewKeys(k, before, after) == {(k, g)};
  }

  // The parts of the invariant that only numbers and updates matter for.
  lemma SameNumbers(k: Key, a: Route, b: Route, q: map<string, RouteUpdate>, dropped: set<(Key, string)>,
                    used: set<string>, hubs: map<Selection, RouteUpdate>)
    requires NumbersOk(k, a, q, used) && DeliveryOk(k, a, q, dropped, hubs)
    requires b.recipient == k.recipient && b.routeKey == k.routeKey
    requires b.revision == a.revision && b.updates == a.updates
    ensures NumbersOk(k, b, q, used) && DeliveryOk(k, b, q, dropped, hubs)
    ensures k.recipient != "" && k.routeKey != "" && |a.updates| <= MAX_UPDATES && Numbered(a)
    ensures a.recipient == k.recipient && a.routeKey == k.routeKey
    ensures forall g :: g in q ==> g in used
  {
  }

  lemma QueueStatus(k: Key, before: Route, after: Route, u: RouteUpdate, q: map<string, RouteUpdate>,
                    dropped: set<(Key, string)>)
    requires StatusOk(k, before, q, dropped) && ActiveOk(before, q)
    requires before.active == Some(u.selection) && after.active == before.active
    requires u.status == Expected(after, u.selection.generation)
    ensures var r := q[u.selection.generation := u];
            ActiveOk(after, r) && StatusOk(k, after, r, dropped - {(k, u.selection.generation)})
  {
  }

  // With no selection every generation is retired, pending or not.
  lemma IdleStatus(k: Key, before: Route, after: Route, q: map<string, RouteUpdate>, dropped: set<(Key, string)>)
    requires StatusOk(k, before, q, dropped) && ActiveOk(before, q) && after.active == before.active
    requires before.active.None? || after.pending.Some? == before.pending.Some?
    ensures ActiveOk(after, q) && StatusOk(k, after, q, dropped)
  {
  }

  // Queueing the right status repairs whatever the route owed its active
  // generation and disturbs no other.
  lemma QueueKeeps(k: Key, before: Route, route: Route, status: RouteStatus, now: int, q: map<string, RouteUpdate>,
                   dropped: set<(Key, string)>, used: set<string>, hubs: map<Selection, RouteUpdate>)
    requires RouteOk(k, before, q, dropped, used, hubs)
    requires route.recipient == k.recipient && route.routeKey == k.routeKey
    requires route.active == before.active && route.revision == before.revision && route.updates == before.updates
    requires route.active.Some? ==> status == Expected(route, route.active.value.generation)
    requires QueueUpdate(route, status, now).Ok?
    ensures Follows(k, before, QueueUpdate(route, status, now).value, q, dropped, used, used, hubs)
  {
    hide NumbersOk, DeliveryOk, StatusOk, ActiveOk, Extends, NewlyQueued, NewKeys, Numbered, Adds;
    KnownNumbers(k, before, q, used);
    if route.active.Some? {
      QueueOneKeeps(k, before, route, status, now, q, dropped, used, hubs);
    } else {
      SameNumbers(k, before, route, q, dropped, used, hubs);
      IdleStatus(k, before, route, q, dropped);
      NothingFollows(k, before, route, q, dropped, used, hubs);
    }
  }

  lemma QueueOneKeeps(k: Key, before: Route, route: Route, status: RouteStatus, now: int, q: map<string, RouteUpdate>,
                      dropped: set<(Key, string)>, used: set<string>, hubs: map<Selection, RouteUpdate>)
    requires RouteOk(k, before, q, dropped, used, hubs) && route.active.Some?
    requires route.recipient == k.recipient && route.routeKey == k.routeKey
    requires route.active == before.active && route.revision == before.revision && route.updates == before.updates
    requires status == Expected(route, route.active.value.generation)
    requires QueueUpdate(route, status, now).Ok?
    ensures Follows(k, before, QueueUpdate(route, status, now).value, q, dropped, used, used, hubs)
  {
    hide NumbersOk, DeliveryOk, StatusOk, ActiveOk, Extends, NewlyQueued, NewKeys, Numbered, Adds, QueueUpdate;
    KnownNumbers(k, before, q, used);
    ActiveIsQueued(before, q);
    var after := QueueUpdate(route, status, now).value;
    var g := route.active.value.generation;
    var u := RouteUpdate(route.active.value, route.recipient, route.routeKey, route.revision + 1, status, now, 0);
    QueueAdds(k, route, status, now);
    AddsToSame(k, route, before, after, u);
    AddKeepsNumbers(k, before, after, u, q, used);
    AddKeepsDelivery(k, before, after, u, q, dropped, hubs);
    QueueStatus(k, before, after, u, q, dropped);
    OneNew(k, before, after, u, q);
    assert used + {g} == used;
  }

  lemma AddsToSame(k: Key, a: Route, b: Route, after: Route, u: RouteUpdate)
    requires Adds(k, a, after, u) && b.revision == a.revision && b.updates == a.updates
    ensures Adds(k, b, after, u)
  {
  }

  // The route after a transaction, with its log of queued updates brought up to
  // date.
  predicate Follows(k: Key, before: Route, after: Route, q: map<string, RouteUpdate>, dropped: set<(Key, string)>,
                    used: set<string>, usedAfter: set<string>, hubs: map<Selection, RouteUpdate>)
  {
    && RouteOk(k, after, q + NewlyQueued(before, after), dropped - NewKeys(k, before, after), usedAfter, hubs)
    && Extends(q, q + NewlyQueued(before, after), before.revision)
    && forall g :: g in NewlyQueued(before, after) && g !in q ==> g !in used
  }

  lemma QuietIsEmpty(k: Key, before: Route, after: Route, q: map<string, RouteUpdate>, used: set<string>)
    requires NumbersOk(k, before, q, used)
    requires after.updates == before.updates
    ensures NewlyQueued(before, after) == map[] && NewKeys(k, before, after) == {}
    ensures q + NewlyQueued(before, after) == q && Extends(q, q, before.revision)
  {
    OldNumbers(k, before, q, used);
  }

  // A route whose updates, revision, active selection and pending-or-not are
  // untouched.
  lemma QuietKeeps(k: Key, before: Route, after: Route, q: map<string, RouteUpdate>, dropped: set<(Key, string)>,
                   used: set<string>, hubs: map<Selection, RouteUpdate>)
    requires RouteOk(k, before, q, dropped, used, hubs)
    requires after.recipient == k.recipient && after.routeKey == k.routeKey
    requires after.active == before.active && after.revision == before.revision && after.updates == before.updates
    requires after.pending.Some? == before.pending.Some?
    ensures Follows(k, before, after, q, dropped, used, used, hubs)
  {
    hide NewlyQueued, NewKeys, NumbersOk, DeliveryOk, StatusOk, ActiveOk, Extends, Numbered;
    KnownNumbers(k, before, q, used);
    SameNumbers(k, before, after, q, dropped, used, hubs);
    IdleStatus(k, before, after, q, dropped);
    NothingFollows(k, before, after, q, dropped, used, hubs);
  }

  lemma NothingFollows(k: Key, before: Route, after: Route, q: map<string, RouteUpdate>, dropped: set<(Key, string)>,
                       used: set<string>, hubs: map<Selection, RouteUpdate>)
    requires NumbersOk(k, before, q, used) && RouteOk(k, after, q, dropped, used, hubs)
    requires after.updates == before.updates
    ensures Follows(k, before, after, q, dropped, used, used, hubs)
  {
    hide NewlyQueued, NewKeys, RouteOk, NumbersOk, Extends;
    QuietIsEmpty(k, before, after, q, used);
    assert dropped - {} == dropped;
  }

  // ------------------------------------------------------------- a switch

  lemma TwoNew(k: Key, before: Route, middle: Route, after: Route, u: RouteUpdate, v: RouteUpdate,
               q: map<string, RouteUpdate>)
    requires Numbered(before) && Adds(k, before, middle, u) && Adds(k, middle, after, v)
    requires u.selection.generation != v.selection.generation && v.selection.generation !in q
    requires u.selection.generation in q && q[u.selection.generation].selection == u.selection
    ensures NewlyQueued(before, after) == map[u.selection.generation := u, v.selection.generation := v]
    ensures NewKeys(k, before, after) == {(k, u.selection.generation), (k, v.selection.generation)}
    ensures q + NewlyQueued(before, after) == q[u.selection.generation := u][v.selection.generation := v]
    ensures Extends(q, q + NewlyQueued(before, after), before.revision)
  {
    hide Extends, NewlyQueued, NewKeys, Adds, Numbered;
    TwoAreNewest(before, middle, after, u, v, k);
    TwoExtend(q, u, v, before.revision);
    var g, h := u.selection.generation, v.selection.generation;
    assert q + map[g := u, h := v] == q[g := u][h := v];
  }

  lemma TwoExtend(q: map<string, RouteUpdate>, u: RouteUpdate, v: RouteUpdate, revision: nat)
    requires revision < u.revision && revision < v.revision && v.selection.generation !in q
    requires u.selection.generation in q && q[u.selection.generation].selection == u.selection
    ensures Extends(q, q[u.selection.generation := u][v.selection.generation := v], revision)
  {
  }

  lemma TwoAreNewest(before: Route, middle: Route, after: Route, u: RouteUpdate, v: RouteUpdate, k: Key)
    requires Numbered(before) && Adds(k, before, middle, u) && Adds(k, middle, after, v)
    requires u.selection.generation != v.selection.generation
    ensures NewlyQueued(before, after) == map[u.selection.generation := u, v.selection.generation := v]
    ensures NewKeys(k, before, after) == {(k, u.selection.generation), (k, v.selection.generation)}
    ensures before.revision < u.revision < v.revision
  {
    var newest := map[u.selection.generation := u, v.selection.generation := v];
    assert forall g :: g in NewlyQueued(before, after) <==> g in newest;
    assert NewlyQueued(before, after) == newest;
  }

  lemma SwitchKeeps(k: Key, before: Route, route: Route, s: Selection, now: int, q: map<string, RouteUpdate>,
                    dropped: set<(Key, string)>, used: set<string>, hubs: map<Selection, RouteUpdate>)
    requires RouteOk(k, before, q, dropped, used, hubs)
    requires route == before.(pending := route.pending)
    requires s.generation !in used && Switch(route, s, now).Ok?
    ensures Follows(k, before, Switch(route, s, now).value, q, dropped, used, used + {s.generation}, hubs)
  {
    if route.active.Some? {
      ReplaceKeeps(k, before, route, s, now, q, dropped, used, hubs);
    } else {
      FirstKeeps(k, before, route, s, now, q, dropped, used, hubs);
    }
  }

  // What a first selection and a replacement do to the route.
  lemma FirstShape(k: Key, before: Route, route: Route, s: Selection, now: int)
    requires before.recipient == k.recipient && before.routeKey == k.routeKey && k.recipient != "" && k.routeKey != ""
    requires |before.updates| <= MAX_UPDATES
    requires route == before.(pending := route.pending) && route.active.None? && Switch(route, s, now).Ok?
    ensures var after := Switch(route, s, now).value;
            var v := RouteUpdate(s, before.recipient, before.routeKey, before.revision + 1, Active, now, 0);
            Adds(k, before, after, v) && after.active == Some(s) && after.pending.None?
  {
    QueueAdds(k, route.(active := Some(s), pending := None), Active, now);
  }

  lemma ReplaceShape(k: Key, before: Route, route: Route, s: Selection, now: int)
    requires before.recipient == k.recipient && before.routeKey == k.routeKey && k.recipient != "" && k.routeKey != ""
    requires |before.updates| <= MAX_UPDATES
    requires route == before.(pending := route.pending) && route.active.Some? && Switch(route, s, now).Ok?
    ensures QueueUpdate(route, Retired, now).Ok?
    ensures var middle := QueueUpdate(route, Retired, now).value;
            var after := Switch(route, s, now).value;
            var u := RouteUpdate(before.active.value, before.recipient, before.routeKey, before.revision + 1, Retired,
                                 now, 0);
            var v := RouteUpdate(s, before.recipient, before.routeKey, before.revision + 2, Active, now, 0);
            Adds(k, before, middle, u) && Adds(k, middle, after, v) && after.active == Some(s) && after.pending.None?
  {
    QueueAdds(k, route, Retired, now);
    QueueAdds(k, QueueUpdate(route, Retired, now).value.(active := Some(s), pending := None), Active, now);
  }

  lemma FirstStatus(k: Key, before: Route, after: Route, v: RouteUpdate, q: map<string, RouteUpdate>,
                    dropped: set<(Key, string)>)
    requires StatusOk(k, before, q, dropped) && before.active.None? && v.selection.generation !in q
    requires after.active == Some(v.selection) && after.pending.None? && v.status == Active
    ensures var r := q[v.selection.generation := v];
            ActiveOk(after, r) && StatusOk(k, after, r, dropped - {(k, v.selection.generation)})
  {
  }

  lemma ReplaceStatus(k: Key, before: Route, after: Route, u: RouteUpdate, v: RouteUpdate, q: map<string, RouteUpdate>,
                      dropped: set<(Key, string)>)
    requires StatusOk(k, before, q, dropped) && before.active == Some(u.selection) && u.status == Retired
    requires after.active == Some(v.selection) && after.pending.None? && v.status == Active
    requires v.selection.generation !in q && u.selection.generation in q
    ensures var r := q[u.selection.generation := u][v.selection.generation := v];
            ActiveOk(after, r)
            && StatusOk(k, after, r, dropped - {(k, u.selection.generation)} - {(k, v.selection.generation)})
  {
  }

  lemma KnownNumbers(k: Key, route: Route, q: map<string, RouteUpdate>, used: set<string>)
    requires NumbersOk(k, route, q, used)
    ensures route.recipient == k.recipient && route.routeKey == k.routeKey && k.recipient != "" && k.routeKey != ""
    ensures |route.updates| <= MAX_UPDATES && Numbered(route)
    ensures forall g :: g in q ==> g in used
  {
  }

  lemma FirstKeeps(k: Key, before: Route, route: Route, s: Selection, now: int, q: map<string, RouteUpdate>,
                   dropped: set<(Key, string)>, used: set<string>, hubs: map<Selection, RouteUpdate>)
    requires RouteOk(k, before, q, dropped, used, hubs)
    requires route == before.(pending := route.pending) && route.active.None?
    requires s.generation !in used && Switch(route, s, now).Ok?
    ensures Follows(k, before, Switch(route, s, now).value, q, dropped, used, used + {s.generation}, hubs)
  {
    hide NumbersOk, DeliveryOk, StatusOk, ActiveOk, Extends, NewlyQueued, NewKeys, Numbered, Switch, Adds;
    KnownNumbers(k, before, q, used);
    FirstShape(k, before, route, s, now);
    var after := Switch(route, s, now).value;
    var v := RouteUpdate(s, before.recipient, before.routeKey, before.revision + 1, Active, now, 0);
    AddKeepsNumbers(k, before, after, v, q, used);
    AddKeepsDelivery(k, before, after, v, q, dropped, hubs);
    FirstStatus(k, before, after, v, q, dropped);
    OneNew(k, before, after, v, q);
  }

  lemma ReplaceKeeps(k: Key, before: Route, route: Route, s: Selection, now: int, q: map<string, RouteUpdate>,
                     dropped: set<(Key, string)>, used: set<string>, hubs: map<Selection, RouteUpdate>)
    requires RouteOk(k, before, q, dropped, used, hubs)
    requires route == before.(pending := route.pending) && route.active.Some?
    requires s.generation !in used && Switch(route, s, now).Ok?
    ensures Follows(k, before, Switch(route, s, now).value, q, dropped, used, used + {s.generation}, hubs)
  {
    hide NumbersOk, DeliveryOk, StatusOk, ActiveOk, Extends, NewlyQueued, NewKeys, Numbered, Switch, QueueUpdate, Adds;
    KnownNumbers(k, before, q, used);
    ReplaceShape(k, before, route, s, now);
    var middle := QueueUpdate(route, Retired, now).value;
    var after := Switch(route, s, now).value;
    var g := before.active.value.generation;
    var u := RouteUpdate(before.active.value, before.recipient, before.routeKey, before.revision + 1, Retired, now, 0);
    var v := RouteUpdate(s, before.recipient, before.routeKey, before.revision + 2, Active, now, 0);
    ActiveIsQueued(before, q);
    AddKeepsNumbers(k, before, middle, u, q, used);
    AddKeepsDelivery(k, before, middle, u, q, dropped, hubs);
    AddKeepsNumbers(k, middle, after, v, q[g := u], used + {g});
    AddKeepsDelivery(k, middle, after, v, q[g := u], dropped - {(k, g)}, hubs);
    ReplaceStatus(k, before, after, u, v, q, dropped);
    TwoNew(k, before, middle, after, u, v, q);
    assert used + {g} == used;
    assert dropped - {(k, g)} - {(k, s.generation)} == dropped - NewKeys(k, before, after);
  }

  lemma ActiveIsQueued(route: Route, q: map<string, RouteUpdate>)
    requires ActiveOk(route, q) && route.active.Some?
    ensures route.active.value.generation in q && q[route.active.value.generation].selection == route.active.value
  {
  }

  // --------------------------------------------------- one route of the world

  // The log keeps every generation under the same selection, and what replaces
  // an entry carries a number the route had not reached before.
  ghost predicate Grows(w: World, x: World) {
    && (forall k, g :: k in w.queued && g in w.queued[k] ==>
                         && k in w.dir && k in x.queued && g in x.queued[k]
                         && x.queued[k][g].selection == w.queued[k][g].selection
                         && (x.queued[k][g] == w.queued[k][g] || x.queued[k][g].revision > w.dir[k].revision))
    && (forall k, g :: k in w.dir && k in x.queued && g in x.queued[k] && g !in QueuedOf(w, k) ==>
                         x.queued[k][g].revision > w.dir[k].revision)
  }

  lemma StoredGrows(w: World, dir: Directory, now: int, used: set<string>)
    requires Inv(w) && w.dir.Keys <= dir.Keys
    requires forall k :: k in dir ==>
                           Follows(k, RouteAt(w.dir, k), dir[k], QueuedOf(w, k), w.dropped, w.used, used, w.hubs)
    ensures Grows(w, Stored(w, dir, now).(used := used))
  {
    hide RouteOk, NewlyQueued, NewKeys, Requeued;
    forall k, g | k in w.queued && g in w.queued[k]
      ensures var r := Stored(w, dir, now).queued;
              && k in w.dir && k in r && g in r[k]
              && r[k][g].selection == w.queued[k][g].selection
              && (r[k][g] == w.queued[k][g] || r[k][g].revision > w.dir[k].revision)
    {
      assert Follows(k, RouteAt(w.dir, k), dir[k], QueuedOf(w, k), w.dropped, w.used, used, w.hubs);
    }
    forall k, g | k in w.dir && g in Stored(w, dir, now).queued[k] && g !in QueuedOf(w, k)
      ensures Stored(w, dir, now).queued[k][g].revision > w.dir[k].revision
    {
      assert Follows(k, RouteAt(w.dir, k), dir[k], QueuedOf(w, k), w.dropped, w.used, used, w.hubs);
    }
  }

  // A transaction that keeps every route keeps the world.
  lemma StoredKeeps(w: World, dir: Directory, now: int, used: set<string>)
    requires Inv(w) && w.used <= used
    requires w.dir.Keys <= dir.Keys
    requires forall k :: k in dir ==>
                           Follows(k, RouteAt(w.dir, k), dir[k], QueuedOf(w, k), w.dropped, w.used, used, w.hubs)
    requires forall j, k, g :: j in dir && k in dir && j != k && g in NewlyQueued(RouteAt(w.dir, j), dir[j])
                               && g in NewlyQueued(RouteAt(w.dir, k), dir[k]) ==>
                                 g in w.used
    ensures Inv(Stored(w, dir, now).(used := used)) && Grows(w, Stored(w, dir, now).(used := used))
  {
    hide RouteOk, Follows, NewlyQueued, Requeued, NoNewer, Grows;
    StoredGrows(w, dir, now, used);
    var x := Stored(w, dir, now).(used := used);
    forall k | k in dir
      ensures RouteOk(k, x.dir[k], x.queued[k], x.dropped, x.used, x.hubs)
    {
      StoredRouteOk(w, dir, now, used, k);
    }
    LogsStayApart(w, dir, now, used);
    forall u | u in x.sent
      ensures UpdateKey(u) in x.queued && NoNewer(u, x.queued[UpdateKey(u)])
    {
      StillNoNewer(w, dir, u, UpdateKey(u), used);
    }
  }

  lemma StoredRouteOk(w: World, dir: Directory, now: int, used: set<string>, k: Key)
    requires k in dir && Follows(k, RouteAt(w.dir, k), dir[k], QueuedOf(w, k), w.dropped, w.used, used, w.hubs)
    ensures var x := Stored(w, dir, now);
            RouteOk(k, dir[k], x.queued[k], x.dropped, used, w.hubs)
  {
    hide RouteOk, Extends;
    var x := Stored(w, dir, now);
    assert forall g :: (k, g) in Requeued(w, dir) <==> (k, g) in NewKeys(k, RouteAt(w.dir, k), dir[k]);
    SameDrops(k, dir[k], x.queued[k], w.dropped - NewKeys(k, RouteAt(w.dir, k), dir[k]), x.dropped, used, w.hubs);
  }

  lemma LogsStayApart(w: World, dir: Directory, now: int, used: set<string>)
    requires Inv(w)
    requires forall k :: k in dir ==>
                           Follows(k, RouteAt(w.dir, k), dir[k], QueuedOf(w, k), w.dropped, w.used, used, w.hubs)
    requires forall j, k, g :: j in dir && k in dir && j != k && g in NewlyQueued(RouteAt(w.dir, j), dir[j])
                               && g in NewlyQueued(RouteAt(w.dir, k), dir[k]) ==>
                                 g in w.used
    ensures var q := Stored(w, dir, now).queued;
            forall j, k, g :: j in q && k in q && g in q[j] && g in q[k] ==> j == k
  {
    var q := Stored(w, dir, now).queued;
    forall j, k, g | j in q && k in q && g in q[j] && g in q[k]
      ensures j == k
    {
      LogIsUsed(w, j, g);
      LogIsUsed(w, k, g);
      assert Follows(j, RouteAt(w.dir, j), dir[j], QueuedOf(w, j), w.dropped, w.used, used, w.hubs);
      assert Follows(k, RouteAt(w.dir, k), dir[k], QueuedOf(w, k), w.dropped, w.used, used, w.hubs);
    }
  }

  lemma LogIsUsed(w: World, k: Key, g: string)
    requires Inv(w)
    ensures g in QueuedOf(w, k) ==> k in w.queued && g in w.queued[k] && g in w.used
  {
  }

  lemma StillNoNewer(w: World, dir: Directory, u: RouteUpdate, k: Key, used: set<string>)
    requires Inv(w) && u in w.sent && k == UpdateKey(u) && k in dir
    requires Follows(k, RouteAt(w.dir, k), dir[k], QueuedOf(w, k), w.dropped, w.used, used, w.hubs)
    ensures NoNewer(u, QueuedOf(w, k) + NewlyQueued(RouteAt(w.dir, k), dir[k]))
  {
    assert NoNewer(u, w.queued[k]);
    assert NumbersOk(k, w.dir[k], w.queued[k], w.used);
  }

  lemma SameDrops(k: Key, route: Route, q: map<string, RouteUpdate>, a: set<(Key, string)>, b: set<(Key, string)>,
                  used: set<string>, hubs: map<Selection, RouteUpdate>)
    requires RouteOk(k, route, q, a, used, hubs)
    requires forall g :: (k, g) in a <==> (k, g) in b
    ensures RouteOk(k, route, q, b, used, hubs)
  {
  }
}
