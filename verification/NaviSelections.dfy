// What whole runs of the route directory guarantee about selections, proofs and
// pending bindings.
module NaviSelections {
  import opened Prelude
  import opened NaviRoutes
  import opened NaviWorld
  import opened NaviSteps

  // ------------------------------------------------ how one move changes a route

  predicate CreatesAt(w: World, move: Move, k: Key) {
    move.BeginMove? && KeyOf(move.m) == k && Creates(w.dir, move.m, move.checked, move.now)
  }

  // The same binding, its deadline no later and whatever was pinned still pinned.
  predicate Tightened(p: Pending, q: Pending) {
    && q.id == p.id && q.hubId == p.hubId && q.token == p.token && q.occurred == p.occurred
    && q.recipient == p.recipient && q.routeKey == p.routeKey
    && q.expiresAt <= p.expiresAt
    && (p.hubIdentity.Some? ==> q.hubIdentity == p.hubIdentity)
    && (p.sessionId.Some? ==> q.sessionId == p.sessionId)
  }

  predicate PendingStep(a: Option<Pending>, b: Option<Pending>) {
    b.Some? ==> a.Some? && Tightened(a.value, b.value)
  }

  // A selection is only ever replaced by one with the generation just minted.
  predicate ActiveStep(a: Option<Selection>, b: Option<Selection>, move: Move) {
    b == a || b.None? || (move.FinishMove? && b.value.generation == move.generation)
  }

  predicate SeenStep(a: map<ProofId, int>, b: map<ProofId, int>, clock: int) {
    forall id :: id in a ==> a[id] <= clock || (id in b && b[id] == a[id])
  }

  function PollAfter(route: Route, k: Key, move: Move): int {
    if move.NotifyMove? && move.k == k then move.now + 15 else route.notificationNextPoll
  }

  ghost predicate RouteStep(w: World, move: Move, k: Key, a: Route, b: Route, clock: int) {
    && ActiveStep(a.active, b.active, move)
    && (CreatesAt(w, move, k) || PendingStep(a.pending, b.pending))
    && SeenStep(a.seen, b.seen, clock)
    && b.notificationNextPoll == PollAfter(a, k, move)
    && a.revision <= b.revision
  }

  lemma QueueOnlyQueues(route: Route, status: RouteStatus, now: int)
    requires QueueUpdate(route, status, now).Ok?
    ensures var after := QueueUpdate(route, status, now).value;
            after == route.(revision := after.revision, updates := after.updates) && route.revision <= after.revision
  {
  }

  lemma BeginSteps(w: World, m: Inbound, checked: int, now: int, k: Key)
    requires k in w.dir
    ensures k in Begin(w.dir, m, checked, now).0
    ensures RouteStep(w, BeginMove(m, checked, now), k, w.dir[k], Begin(w.dir, m, checked, now).0[k], now)
  {
    hide QueueUpdate, ProofShape;
    if ProofShape(m) && k == KeyOf(m) {
      var begun := Opened(w.dir, m, now);
      if QueueUpdate(WithProof(begun, m, now), Paused, now).Ok? {
        QueueOnlyQueues(WithProof(begun, m, now), Paused, now);
      }
    }
  }

  lemma ExpireSteps(w: World, move: Move, k: Key, now: int)
    requires k in w.dir && ExpireRoute(w.dir[k], now).Ok? && !move.NotifyMove?
    ensures RouteStep(w, move, k, w.dir[k], ExpireRoute(w.dir[k], now).value, now)
  {
    hide QueueUpdate;
    var route := w.dir[k];
    if route.pending.Some? && route.pending.value.expiresAt <= now {
      QueueOnlyQueues(route.(pending := None), Active, now);
    }
  }

  lemma SwitchSteps(route: Route, s: Selection, now: int)
    requires Switch(route, s, now).Ok?
    ensures var after := Switch(route, s, now).value;
            && after.active == Some(s) && after.pending.None? && after.seen == route.seen
            && after.notificationNextPoll == route.notificationNextPoll && route.revision <= after.revision
  {
  }

  lemma FinishSteps(w: World, p: Pending, status: nat, proof: Proof, identity: string, generation: string, now: int,
                    k: Key)
    requires k in w.dir
    ensures k in Finish(w.dir, p, status, proof, identity, generation, now).0
    ensures RouteStep(w, FinishMove(p, status, proof, identity, generation, now), k, w.dir[k],
                      Finish(w.dir, p, status, proof, identity, generation, now).0[k], now)
  {
    hide QueueUpdate, Switch, Bound, Refusal, ValidProofId, AllHex;
    var route := w.dir[k];
    if k == Key(p.recipient, p.routeKey) && FinishRoute(route, p, status, proof, identity, generation, now).Ok?
       && route.pending.Some? && route.pending.value.id == p.id
    {
      var current := route.pending.value;
      if current.expiresAt <= now || Refusal(status) {
        QueueOnlyQueues(route.(pending := None), Active, now);
      } else if Bound(current, proof, now) && proof.status != Some("awaiting_owner_confirmation") {
        SwitchSteps(route.(pending := Some(Refreshed(current, proof, identity))),
                    Selection(p.hubId, identity, proof.sessionId.value, generation, now), now);
      }
    }
  }

  lemma ClaimSteps(w: World, at: Option<Key>, now: int, k: Key)
    requires Allowed(w, ClaimMove(at, now)) && k in w.dir
    ensures k in Apply(w, ClaimMove(at, now)).dir
    ensures RouteStep(w, ClaimMove(at, now), k, w.dir[k], Apply(w, ClaimMove(at, now)).dir[k], now)
  {
    hide ExpireRoute;
    if CanExpire(w.dir, now) {
      ExpireSteps(w, ClaimMove(at, now), k, now);
    }
  }

  lemma MoveSteps(w: World, move: Move, k: Key)
    requires Allowed(w, move) && k in w.dir
    ensures k in Apply(w, move).dir
    ensures RouteStep(w, move, k, w.dir[k], Apply(w, move).dir[k], Apply(w, move).clock)
  {
    hide CanExpire, ExpireAll, Begin, Finish, Requeued, GivenUp;
    match move
    case BeginMove(m, checked, now) => BeginSteps(w, m, checked, now, k);
    case ClaimMove(at, now) => ClaimSteps(w, at, now, k);
    case FinishMove(p, status, proof, identity, generation, now) =>
      FinishSteps(w, p, status, proof, identity, generation, now, k);
    case _ =>
  }

  lemma ClockAdvances(w: World, move: Move)
    requires Allowed(w, move)
    ensures w.clock <= Apply(w, move).clock && w.used <= Apply(w, move).used
    ensures move.FinishMove? ==> move.generation !in w.used
  {
    hide CanExpire, ExpireAll, Begin, Finish, Requeued, GivenUp;
  }

  lemma BeginOpens(d: Directory, m: Inbound, checked: int, now: int, k: Key)
    requires k !in d && k in Begin(d, m, checked, now).0
    ensures Begin(d, m, checked, now).0[k].active.None?
    ensures KeyOf(m) == k && Creates(d, m, checked, now)
  {
    hide ProofShape, QueueUpdate;
    var route := WithProof(Opened(d, m, now), m, now);
    if QueueUpdate(route, Paused, now).Ok? {
      QueueOnlyQueues(route, Paused, now);
    }
    NothingSeenYet(d, m, now);
  }

  // A route comes into being with a pending binding and no selection.
  lemma MoveOpens(w: World, move: Move, k: Key)
    requires Allowed(w, move) && k !in w.dir && k in Apply(w, move).dir
    ensures Apply(w, move).dir[k].active.None? && CreatesAt(w, move, k)
  {
    hide CanExpire, ExpireRoute, Requeued, GivenUp, InvalidateRoute, FinishRoute, NewlyQueued, Begin, Creates;
    if move.BeginMove? {
      BeginOpens(w.dir, move.m, move.checked, move.now, k);
    }
  }

  // ------------------------------------------- a selection is used once, if ever

  predicate Uses(d: Directory, k: Key, s: Selection) {
    k in d && d[k].active == Some(s)
  }

  // A generation already minted cannot become a route's selection again.
  lemma {:induction false} NeverAgain(worlds: seq<World>, moves: seq<Move>, k: Key, s: Selection, i: nat, j: nat)
    requires IsRun(worlds, moves) && i <= j < |worlds|
    requires s.generation in worlds[i].used && !Uses(worlds[i].dir, k, s)
    ensures s.generation in worlds[j].used && !Uses(worlds[j].dir, k, s)
    decreases j
  {
    hide Apply, Allowed;
    if i < j {
      NeverAgain(worlds, moves, k, s, i, j - 1);
      ClockAdvances(worlds[j - 1], moves[j - 1]);
      if k in worlds[j - 1].dir {
        MoveSteps(worlds[j - 1], moves[j - 1], k);
      } else if k in worlds[j].dir {
        MoveOpens(worlds[j - 1], moves[j - 1], k);
      }
    }
  }

  lemma {:induction false} UsedGrows(worlds: seq<World>, moves: seq<Move>, i: nat, j: nat)
    requires IsRun(worlds, moves) && i <= j < |worlds|
    ensures worlds[i].used <= worlds[j].used && worlds[i].clock <= worlds[j].clock
    decreases j
  {
    hide Apply, Allowed;
    if i < j {
      UsedGrows(worlds, moves, i, j - 1);
      ClockAdvances(worlds[j - 1], moves[j - 1]);
    }
  }

  lemma ActiveBelongs(w: World, k: Key, s: Selection)
    requires Inv(w) && Uses(w.dir, k, s)
    ensures s.generation in w.used && s.generation in w.queued[k]
    ensures w.queued[k][s.generation].selection == s
    ensures forall j :: Uses(w.dir, j, s) ==> j == k
  {
    hide StatusOk, DeliveryOk;
    assert RouteOk(k, w.dir[k], w.queued[k], w.dropped, w.used, w.hubs);
    forall j | Uses(w.dir, j, s)
      ensures j == k
    {
      assert RouteOk(j, w.dir[j], w.queued[j], w.dropped, w.used, w.hubs);
    }
  }

  // A selection is in use on one route for one contiguous interval: once
  // replaced or revoked it is never in use on any route again, and no outbound
  // message carrying it passes the check.
  lemma SelectionsAreIntervals(worlds: seq<World>, moves: seq<Move>, k: Key, s: Selection, a: nat, i: nat, j: nat)
    requires IsRun(worlds, moves) && a <= i <= j < |worlds|
    requires Uses(worlds[a].dir, k, s) && !Uses(worlds[i].dir, k, s)
    ensures forall l :: !Uses(worlds[j].dir, l, s)
    ensures forall l, now :: Check(worlds[j].dir, l, s, now).Err?
  {
    hide Apply, Allowed, Inv;
    RunKeeps(worlds, moves, a);
    ActiveBelongs(worlds[a], k, s);
    UsedGrows(worlds, moves, a, i);
    forall l
      ensures !Uses(worlds[j].dir, l, s)
    {
      if l == k {
        NeverAgain(worlds, moves, k, s, i, j);
      } else {
        NeverAgain(worlds, moves, l, s, a, j);
      }
    }
    assert forall l, now :: Check(worlds[j].dir, l, s, now).Ok? ==> Uses(worlds[j].dir, l, s);
  }

  // An answer that passes the check long after its message was routed proves
  // that the device stayed selected in between, on that route alone, and that
  // the message was written after the device was selected.
  lemma CheckedMeansUninterrupted(worlds: seq<World>, moves: seq<Move>, m: Inbound, s: Selection, i: nat, t: nat,
                                  j: nat, now: int, later: int, k: Key)
    requires IsRun(worlds, moves) && i <= t <= j < |worlds|
    requires Select(worlds[i].dir, m, now) == Ok(s) && Check(worlds[j].dir, k, s, later).Ok?
    ensures k == KeyOf(m) && Uses(worlds[t].dir, k, s)
    ensures m.timestamp.Some? && s.selectedAt < m.timestamp.value <= now + 60
  {
    hide Apply, Allowed, Inv;
    assert Uses(worlds[i].dir, KeyOf(m), s) && Uses(worlds[j].dir, k, s);
    if !Uses(worlds[t].dir, KeyOf(m), s) {
      SelectionsAreIntervals(worlds, moves, KeyOf(m), s, i, t, j);
    }
    if !Uses(worlds[j].dir, KeyOf(m), s) {
      SelectionsAreIntervals(worlds, moves, KeyOf(m), s, i, j, j);
    }
    RunKeeps(worlds, moves, j);
    ActiveBelongs(worlds[j], k, s);
  }

  // ------------------------------------------------------------- proof replay

  // The message's proof is remembered until it is too old to be presented.
  predicate Remembers(w: World, k: Key, id: ProofId, occurred: int) {
    k in w.dir && (occurred + 360 <= w.clock || (id in w.dir[k].seen && w.dir[k].seen[id] == occurred + 360))
  }

  lemma CreationIsRemembered(w: World, move: Move, k: Key)
    requires Allowed(w, move) && CreatesAt(w, move, k)
    ensures Remembers(Apply(w, move), k, ProofOf(move.m.text).value, move.m.timestamp.value)
  {
    hide ProofShape, Requeued;
    var route := WithProof(Opened(w.dir, move.m, move.now), move.m, move.now);
    QueueOnlyQueues(route, Paused, move.now);
  }

  lemma {:induction false} MemoryLasts(worlds: seq<World>, moves: seq<Move>, k: Key, i: nat, j: nat)
    requires IsRun(worlds, moves) && i < j < |worlds| && CreatesAt(worlds[i], moves[i], k)
    ensures Remembers(worlds[j], k, ProofOf(moves[i].m.text).value, moves[i].m.timestamp.value)
    decreases j
  {
    hide Apply, Allowed, Creates, ProofOf;
    if i + 1 < j {
      MemoryLasts(worlds, moves, k, i, j - 1);
      ClockAdvances(worlds[j - 1], moves[j - 1]);
      MoveSteps(worlds[j - 1], moves[j - 1], k);
    } else {
      CreationIsRemembered(worlds[i], moves[i], k);
    }
  }

  predicate SameMessage(m: Inbound, n: Inbound) {
    KeyOf(m) == KeyOf(n) && ProofOf(m.text) == ProofOf(n.text) && m.timestamp == n.timestamp
  }

  // A phone message creates a second binding only in a call whose two clock
  // readings, before and inside the transaction, are more than 60 s apart.
  lemma ReplayNeedsClockGap(worlds: seq<World>, moves: seq<Move>, k: Key, i: nat, j: nat)
    requires IsRun(worlds, moves) && i < j < |moves|
    requires CreatesAt(worlds[i], moves[i], k) && CreatesAt(worlds[j], moves[j], k)
    requires SameMessage(moves[i].m, moves[j].m)
    ensures moves[j].now - moves[j].checked > 60
  {
    hide Apply, ProofShape, QueueUpdate;
    MemoryLasts(worlds, moves, k, i, j);
  }

  // The same proof presented twice, the second time judged by a clock reading
  // at the last second the message is fresh.
  function Replay(m: Inbound, gap: nat): seq<Move>
    requires m.timestamp.Some?
  {
    var t := m.timestamp.value;
    [BeginMove(m, t, t), BeginMove(m, t + 299, t + 299 + gap)]
  }

  // The 60 s are exact: that second presentation creates a binding just when
  // the transaction starts more than 60 s after the message was judged.
  lemma ReplayWindow(m: Inbound, gap: nat)
    requires ProofShape(m) && m.timestamp.value >= 0
    ensures var moves := Replay(m, gap);
            var once := Apply(DAWN, moves[0]);
            var twice := Apply(once, moves[1]);
            && IsRun([DAWN, once, twice], moves)
            && CreatesAt(DAWN, moves[0], KeyOf(m))
            && (CreatesAt(once, moves[1], KeyOf(m)) <==> gap > 60)
  {
    hide Stored;
    var t := m.timestamp.value;
    FirstPresentation(m);
    SecondPresentation(m, Begin(map[], m, t, t).0, gap);
    StoredIs(DAWN, Begin(map[], m, t, t).0, t);
  }

  lemma StoredIs(w: World, dir: Directory, now: int)
    ensures Stored(w, dir, now).dir == dir && Stored(w, dir, now).clock == now
  {
    hide Requeued;
  }

  lemma FirstPresentation(m: Inbound)
    requires ProofShape(m) && m.timestamp.value >= 0
    ensures var t := m.timestamp.value;
            Creates(map[], m, t, t)
            && Begin(map[], m, t, t).0 == map[KeyOf(m) := WithProof(Opened(map[], m, t), m, t)]
  {
    hide ProofOf, ValidHubId, AllHex;
    var t := m.timestamp.value;
    var d: Directory := map[];
    assert Opened(d, m, t).seen == map[];
    assert |d| == 0 && |Opened(d, m, t).seen| == 0;
    assert QueueUpdate(WithProof(Opened(d, m, t), m, t), Paused, t) == Ok(WithProof(Opened(d, m, t), m, t));
  }

  lemma SecondPresentation(m: Inbound, d: Directory, gap: nat)
    requires ProofShape(m) && d == map[KeyOf(m) := WithProof(Opened(map[], m, m.timestamp.value), m, m.timestamp.value)]
    ensures Creates(d, m, m.timestamp.value + 299, m.timestamp.value + 299 + gap) <==> gap > 60
  {
    hide ProofOf, ValidHubId, AllHex;
    var t := m.timestamp.value;
    var id := ProofOf(m.text).value;
    assert Opened(map[], m, t).seen == map[];
    assert d[KeyOf(m)].seen == map[id := t + 360];
    if gap > 60 {
      assert Opened(d, m, t + 299 + gap).seen == map[];
    } else {
      assert id in Opened(d, m, t + 299 + gap).seen;
    }
  }

  // -------------------------------------------------------- pending bindings

  // Between creations a pending binding only tightens: its deadline never moves
  // later, and the device identity and session it has seen never change.
  lemma {:induction false} PendingOnlyTightens(worlds: seq<World>, moves: seq<Move>, k: Key, i: nat, j: nat)
    requires IsRun(worlds, moves) && i <= j < |worlds| && k in worlds[i].dir
    requires forall t :: i <= t < j ==> !CreatesAt(worlds[t], moves[t], k)
    ensures k in worlds[j].dir && PendingStep(worlds[i].dir[k].pending, worlds[j].dir[k].pending)
    decreases j
  {
    hide Apply, Allowed, CreatesAt;
    if i < j {
      PendingOnlyTightens(worlds, moves, k, i, j - 1);
      MoveSteps(worlds[j - 1], moves[j - 1], k);
    }
  }
}
