// Hubs converge on what the directory says: for each selection ever made, the
// last update queued carries the selection's present status, and it is either
// still waiting for delivery or already held by the hub.
module NaviConvergence {
  import opened Prelude
  import opened NaviRoutes
  import opened NaviWorld
  import opened NaviSteps
  import opened NaviSelections

  // The moves that withdraw an update no hub has confirmed: a lost device
  // identity, and a hub that answers 403 or 410.
  predicate GivesUp(move: Move) {
    move.InvalidateMove? || (move.ReceiptMove? && move.status in {403, 410})
  }

  lemma {:induction false} QueuedStays(worlds: seq<World>, moves: seq<Move>, k: Key, g: string, i: nat, j: nat)
    requires IsRun(worlds, moves) && i <= j < |worlds|
    requires k in worlds[i].queued && g in worlds[i].queued[k]
    ensures k in worlds[j].queued && g in worlds[j].queued[k]
    ensures worlds[j].queued[k][g].selection == worlds[i].queued[k][g].selection
    decreases j
  {
    hide Apply, Allowed, Inv;
    if i < j {
      QueuedStays(worlds, moves, k, g, i, j - 1);
      RunKeeps(worlds, moves, j - 1);
      MoveKeeps(worlds[j - 1], moves[j - 1]);
    }
  }

  // What a hub should know of a selection that this route has made.
  function Present(d: Directory, k: Key, s: Selection): RouteStatus
    requires k in d
  {
    if !Uses(d, k, s) then Retired else if d[k].pending.Some? then Paused else Active
  }

  // The last update queued for a selection: right, and on its way or delivered.
  predicate Announced(w: World, k: Key, s: Selection) {
    && k in w.dir && k in w.queued && s.generation in w.queued[k]
    && var last := w.queued[k][s.generation];
       && last.selection == s
       && last.status == Present(w.dir, k, s)
       && ((s.generation in w.dir[k].updates && SameUpdate(w.dir[k].updates[s.generation], last))
           || Held(last, w.hubs))
  }

  lemma StillAnnounced(w: World, k: Key, s: Selection)
    requires Inv(w) && k in w.queued && s.generation in w.queued[k] && (k, s.generation) !in w.dropped
    requires w.queued[k][s.generation].selection == s
    ensures Announced(w, k, s) && |w.dir[k].updates| <= MAX_UPDATES
  {
    var route := w.dir[k];
    assert RouteOk(k, route, w.queued[k], w.dropped, w.used, w.hubs);
    if route.active.Some? && route.active.value.generation == s.generation {
      assert route.active == Some(s);
    }
  }

  lemma SameDomain(w: World, k: Key)
    requires Inv(w) && k in w.dir
    ensures k in w.queued
  {
  }

  // Each newly queued update is numbered above everything the route queued
  // before, so a hub that keeps the highest number keeps the latest word.
  lemma RevisionsIncrease(worlds: seq<World>, moves: seq<Move>, i: nat, k: Key, g: string, h: string)
    requires IsRun(worlds, moves) && i < |moves|
    requires k in worlds[i + 1].queued && g in worlds[i + 1].queued[k] && h in QueuedOf(worlds[i], k)
    requires g in QueuedOf(worlds[i], k) ==> QueuedOf(worlds[i], k)[g] != worlds[i + 1].queued[k][g]
    ensures QueuedOf(worlds[i], k)[h].revision < worlds[i + 1].queued[k][g].revision
  {
    hide Apply, Allowed, Inv;
    RunKeeps(worlds, moves, i);
    MoveKeeps(worlds[i], moves[i]);
    QueuedIsNumbered(worlds[i], k, h);
  }

  lemma QueuedIsNumbered(w: World, k: Key, h: string)
    requires Inv(w) && h in QueuedOf(w, k)
    ensures k in w.dir && QueuedOf(w, k)[h].revision <= w.dir[k].revision
  {
    hide StatusOk, DeliveryOk, ActiveOk;
  }

  // An answer about anything but the last update queued changes nothing.
  lemma StaleReceiptsChangeNothing(worlds: seq<World>, moves: seq<Move>, i: nat, u: RouteUpdate, status: nat,
                                   receipt: Receipt)
    requires IsRun(worlds, moves) && i < |worlds| && Allowed(worlds[i], ReceiptMove(u, status, receipt))
    ensures UpdateKey(u) in worlds[i].queued && u.selection.generation in worlds[i].queued[UpdateKey(u)]
    ensures u.revision < worlds[i].queued[UpdateKey(u)][u.selection.generation].revision ==>
              Answered(worlds[i], u, status, receipt) == worlds[i]
  {
    hide IsRun, Inv, Answered, Allowed;
    RunKeeps(worlds, moves, i);
    StaleReceipt(worlds[i], u, status, receipt);
  }

  lemma StaleReceipt(w: World, u: RouteUpdate, status: nat, receipt: Receipt)
    requires Inv(w) && Allowed(w, ReceiptMove(u, status, receipt))
    ensures UpdateKey(u) in w.queued && u.selection.generation in w.queued[UpdateKey(u)]
    ensures u.revision < w.queued[UpdateKey(u)][u.selection.generation].revision ==>
              Answered(w, u, status, receipt) == w
  {
    hide StatusOk, DeliveryOk, ActiveOk;
    var k := UpdateKey(u);
    assert NoNewer(u, w.queued[k]);
    assert RouteOk(k, w.dir[k], w.queued[k], w.dropped, w.used, w.hubs);
  }

  // --------------------------------------- what an invalidation leaves behind

  // Withdrawing a device identity removes a competing pending binding without
  // queueing "active" for the selection that survives: the hub's last word on it
  // stays "paused". Exactly then is the survivor announced wrongly.
  lemma InvalidationStrandsTheSurvivor(w: World, s: Selection, k: Key)
    requires Inv(w) && k in w.dir && w.dir[k].active.Some? && !SameDevice(w.dir[k].active.value, s)
    requires (k, w.dir[k].active.value.generation) !in w.dropped
    ensures var a := w.dir[k].active.value;
            var x := Withdrawn(w, s);
            && Uses(x.dir, k, a) && k in x.queued && a.generation in x.queued[k]
            && (x.queued[k][a.generation].status == Present(x.dir, k, a) <==> !DropsPending(w.dir[k], s))
  {
    hide DeliveryOk, NumbersOk, GivenUp;
    assert RouteOk(k, w.dir[k], w.queued[k], w.dropped, w.used, w.hubs);
  }

  // ------------------------------------------------- runs that do withdraw updates

  // The move leaves the selection's announcement behind: its own device is lost,
  // its own update is refused for good, or it is stranded as above.
  predicate Abandons(w: World, move: Move, k: Key, s: Selection) {
    match move
    case InvalidateMove(lost) => SameDevice(s, lost) || (Uses(w.dir, k, s) && DropsPending(w.dir[k], lost))
    case ReceiptMove(u, status, _) => status in {403, 410} && UpdateKey(u) == k && u.selection == s && Settles(w.dir, u)
    case _ => false
  }

  // Move `t` abandoned the selection, and nothing was queued for it since.
  ghost predicate AbandonedAt(worlds: seq<World>, moves: seq<Move>, k: Key, s: Selection, t: nat, i: nat)
    requires |worlds| == |moves| + 1 && i < |worlds|
  {
    && t < i && Abandons(worlds[t], moves[t], k, s)
    && k in worlds[t].queued && s.generation in worlds[t].queued[k]
    && k in worlds[i].queued && s.generation in worlds[i].queued[k]
    && worlds[i].queued[k][s.generation] == worlds[t].queued[k][s.generation]
  }

  // A generation is given up only by a move that abandons its selection, and a
  // new update takes that back.
  lemma DropStep(w: World, move: Move, k: Key, s: Selection)
    requires Inv(w) && Allowed(w, move) && (k, s.generation) in Apply(w, move).dropped
    requires k in w.queued && s.generation in w.queued[k] && w.queued[k][s.generation].selection == s
    ensures k in Apply(w, move).queued && s.generation in Apply(w, move).queued[k]
    ensures Apply(w, move).queued[k][s.generation] == w.queued[k][s.generation]
    ensures (k, s.generation) in w.dropped || Abandons(w, move, k, s)
  {
    hide CanExpire, ExpireAll, Begin, Finish, RouteOk, NoNewer;
    KnownRouteOf(w, k, s);
    match move
    case ReceiptMove(u, status, receipt) =>
      if (k, s.generation) !in w.dropped {
        assert NoNewer(u, w.queued[UpdateKey(u)]);
        SentSelection(w, u, k, s);
      }
    case _ =>
      SameWhereNotRequeued(w, move, k, s.generation);
  }

  lemma KnownRouteOf(w: World, k: Key, s: Selection)
    requires Inv(w) && k in w.queued && s.generation in w.queued[k] && w.queued[k][s.generation].selection == s
    ensures w.dir[k].active.Some? && w.dir[k].active.value.generation == s.generation ==> Uses(w.dir, k, s)
  {
    hide NumbersOk, StatusOk, DeliveryOk;
    assert RouteOk(k, w.dir[k], w.queued[k], w.dropped, w.used, w.hubs);
  }

  lemma SentSelection(w: World, u: RouteUpdate, k: Key, s: Selection)
    requires UpdateKey(u) in w.queued && NoNewer(u, w.queued[UpdateKey(u)])
    requires UpdateKey(u) == k && u.selection.generation == s.generation
    requires k in w.queued && s.generation in w.queued[k] && w.queued[k][s.generation].selection == s
    ensures u.selection == s
  {
  }

  // A log entry that is still given up after the move was not queued by it.
  lemma SameWhereNotRequeued(w: World, move: Move, k: Key, g: string)
    requires Inv(w) && Allowed(w, move) && (k, g) in Apply(w, move).dropped
    requires k in w.queued && g in w.queued[k]
    ensures k in Apply(w, move).queued && g in Apply(w, move).queued[k]
    ensures Apply(w, move).queued[k][g] == w.queued[k][g]
  {
    hide CanExpire, ExpireAll, Begin, Finish, RouteOk, NoNewer, GivenUp, RouteStep;
    MoveSteps(w, move, k);
  }

  // An entry that appears in the log was queued, so it is not given up.
  lemma NewEntryIsKept(w: World, move: Move, k: Key, g: string)
    requires Inv(w) && Allowed(w, move) && g !in QueuedOf(w, k)
    requires k in Apply(w, move).queued && g in Apply(w, move).queued[k]
    ensures (k, g) !in Apply(w, move).dropped
  {
    hide CanExpire, ExpireAll, Begin, Finish, RouteOk, NoNewer, GivenUp, FinishUpdate;
  }

  lemma {:induction false} DropsHaveReasons(worlds: seq<World>, moves: seq<Move>, k: Key, s: Selection, i: nat)
    requires IsRun(worlds, moves) && i < |worlds|
    requires k in worlds[i].queued && s.generation in worlds[i].queued[k]
    requires worlds[i].queued[k][s.generation].selection == s && (k, s.generation) in worlds[i].dropped
    ensures exists t: nat :: AbandonedAt(worlds, moves, k, s, t, i)
  {
    hide Apply, Allowed, Inv, Abandons;
    var w, move := worlds[i - 1], moves[i - 1];
    RunKeeps(worlds, moves, i - 1);
    if s.generation !in QueuedOf(w, k) {
      NewEntryIsKept(w, move, k, s.generation);
    }
    MoveKeeps(w, move);
    DropStep(w, move, k, s);
    if (k, s.generation) in w.dropped {
      DropsHaveReasons(worlds, moves, k, s, i - 1);
      var t: nat :| AbandonedAt(worlds, moves, k, s, t, i - 1);
      assert AbandonedAt(worlds, moves, k, s, t, i);
    } else {
      assert AbandonedAt(worlds, moves, k, s, i - 1, i);
    }
  }

  // In every run, withdrawals included: a selection is announced, unless its own
  // device was lost, its own update refused for good, or it was stranded, and
  // nothing has been queued for it since.
  lemma AnnouncedUnlessAbandoned(worlds: seq<World>, moves: seq<Move>, k: Key, s: Selection, a: nat, i: nat)
    requires IsRun(worlds, moves) && a <= i < |worlds| && Uses(worlds[a].dir, k, s)
    ensures Announced(worlds[i], k, s) || exists t: nat :: AbandonedAt(worlds, moves, k, s, t, i)
    ensures k in worlds[i].dir && |worlds[i].dir[k].updates| <= MAX_UPDATES
  {
    hide Apply, Allowed, Inv, Announced, AbandonedAt;
    RunKeeps(worlds, moves, a);
    ActiveBelongs(worlds[a], k, s);
    SameDomain(worlds[a], k);
    QueuedStays(worlds, moves, k, s.generation, a, i);
    RunKeeps(worlds, moves, i);
    OutboxBound(worlds[i], k);
    if (k, s.generation) in worlds[i].dropped {
      DropsHaveReasons(worlds, moves, k, s, i);
    } else {
      StillAnnounced(worlds[i], k, s);
    }
  }

  lemma OutboxBound(w: World, k: Key)
    requires Inv(w) && k in w.queued
    ensures k in w.dir && |w.dir[k].updates| <= MAX_UPDATES
  {
    hide StatusOk, DeliveryOk, ActiveOk;
    assert RouteOk(k, w.dir[k], w.queued[k], w.dropped, w.used, w.hubs);
  }

  // Every selection a route ever made stays announced, and the outbox stays
  // within its limit, as long as nothing was given up.
  lemma HubsConverge(worlds: seq<World>, moves: seq<Move>, k: Key, s: Selection, a: nat, i: nat)
    requires IsRun(worlds, moves) && a <= i < |worlds| && Uses(worlds[a].dir, k, s)
    requires forall t :: 0 <= t < i ==> !GivesUp(moves[t])
    ensures Announced(worlds[i], k, s)
    ensures |worlds[i].dir[k].updates| <= MAX_UPDATES
  {
    hide Apply, Allowed, Announced;
    AnnouncedUnlessAbandoned(worlds, moves, k, s, a, i);
    forall t: nat
      ensures !AbandonedAt(worlds, moves, k, s, t, i)
    {
      assert t < i ==> !GivesUp(moves[t]);
    }
  }

  // Once the outbox has drained, each hub shows the present status.
  lemma DrainedHubsAgree(worlds: seq<World>, moves: seq<Move>, k: Key, s: Selection, a: nat, i: nat)
    requires IsRun(worlds, moves) && a <= i < |worlds| && Uses(worlds[a].dir, k, s)
    requires forall t :: 0 <= t < i ==> !GivesUp(moves[t])
    requires k in worlds[i].dir && worlds[i].dir[k].updates == map[]
    ensures s in worlds[i].hubs && worlds[i].hubs[s].status == Present(worlds[i].dir, k, s)
  {
    hide Apply, Allowed, IsRun;
    HubsConverge(worlds, moves, k, s, a, i);
  }
}
