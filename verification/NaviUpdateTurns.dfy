// Queued updates take turns: over any run, whatever other operations come
// between the deliveries, an update that stays on record is sent within one
// delivery of every other. A hub that fails does not keep the others waiting.
module NaviUpdateTurns {
  import opened Prelude
  import opened NaviRoutes
  import opened NaviWorld
  import opened NaviProofs
  import opened NaviSteps
  import opened NaviSelections
  import opened Rotation

  // A queued update; the next one for the same selection has a higher revision.
  datatype UpdateId = UpdateId(k: Key, generation: string, revision: nat)

  predicate OnRecord(d: Directory, id: UpdateId) {
    id.k in d && id.generation in d[id.k].updates && d[id.k].updates[id.generation].revision == id.revision
  }

  function UpdateTimes(d: Directory): (times: map<UpdateId, int>)
    ensures forall id :: id in times <==> OnRecord(d, id)
    ensures forall id :: OnRecord(d, id) ==> times[id] == d[id.k].updates[id.generation].nextPoll
  {
    map k, g | k in d && g in d[k].updates :: UpdateId(k, g, d[k].updates[g].revision) := d[k].updates[g].nextPoll
  }

  function UpdatePick(w: World, move: Move): Option<UpdateId> {
    if move.SendMove? && move.k in w.dir && move.g in w.dir[move.k].updates
    then Some(UpdateId(move.k, move.g, w.dir[move.k].updates[move.g].revision))
    else None
  }

  function UpdatePicks(worlds: seq<World>, moves: seq<Move>, i: nat, j: nat): (picks: seq<Option<UpdateId>>)
    requires |worlds| == |moves| + 1 && i <= j <= |moves|
    ensures |picks| == j - i && forall t :: 0 <= t < j - i ==> picks[t] == UpdatePick(worlds[i + t], moves[i + t])
  {
    seq(j - i, t requires 0 <= t < j - i => UpdatePick(worlds[i + t], moves[i + t]))
  }

  function TimesOfUpdates(worlds: seq<World>, i: nat, j: nat): (times: seq<map<UpdateId, int>>)
    requires i <= j < |worlds|
    ensures |times| == j - i + 1 && forall t :: 0 <= t <= j - i ==> times[t] == UpdateTimes(worlds[i + t].dir)
  {
    hide UpdateTimes;
    seq(j - i + 1, t requires 0 <= t <= j - i => UpdateTimes(worlds[i + t].dir))
  }

  predicate Queues(move: Move) {
    move.BeginMove? || move.ClaimMove? || move.FinishMove?
  }

  // An update that was on record before keeps its poll time, unless it is sent;
  // one that was not is numbered above everything before, and due at once.
  predicate UpdateStep(a: Route, b: Route, k: Key, move: Move) {
    forall g :: g in b.updates ==>
                  || (&& b.updates[g].revision > a.revision && b.updates[g].nextPoll == 0
                      && Queues(move) && b.updates[g].issuedAt == move.now)
                  || (&& g in a.updates && b.updates[g].revision == a.updates[g].revision
                      && b.updates[g].nextPoll
                         == if move.SendMove? && move.k == k && move.g == g then move.now + 10
                            else a.updates[g].nextPoll)
  }

  lemma QueueSteps(a: Route, route: Route, status: RouteStatus, now: int, k: Key, move: Move)
    requires QueueUpdate(route, status, now).Ok? && UpdateStep(a, route, k, move) && a.revision <= route.revision
    requires Queues(move) && now == move.now
    ensures UpdateStep(a, QueueUpdate(route, status, now).value, k, move)
  {
  }

  lemma SwitchQueues(a: Route, route: Route, s: Selection, now: int, k: Key, move: Move)
    requires Switch(route, s, now).Ok? && UpdateStep(a, route, k, move) && a.revision <= route.revision
    requires Queues(move) && now == move.now
    ensures UpdateStep(a, Switch(route, s, now).value, k, move)
  {
    hide QueueUpdate, UpdateStep;
    QueueOnlyQueues(route, Retired, now);
    QueueSteps(a, route, Retired, now, k, move);
    var middle := QueueUpdate(route, Retired, now).value;
    SameUpdates(a, middle, middle.(active := Some(s), pending := None), k, move);
    QueueSteps(a, middle.(active := Some(s), pending := None), Active, now, k, move);
  }

  lemma SameUpdates(a: Route, b: Route, c: Route, k: Key, move: Move)
    requires UpdateStep(a, b, k, move) && c.updates == b.updates
    ensures UpdateStep(a, c, k, move)
  {
  }

  lemma UntouchedUpdates(a: Route, b: Route, k: Key, move: Move)
    requires b.updates == a.updates && !move.SendMove?
    ensures UpdateStep(a, b, k, move)
  {
  }

  lemma BeginUpdates(w: World, move: Move, k: Key)
    requires move.BeginMove? && k in w.dir
    ensures k in Begin(w.dir, move.m, move.checked, move.now).0
    ensures UpdateStep(w.dir[k], Begin(w.dir, move.m, move.checked, move.now).0[k], k, move)
  {
    hide QueueUpdate, ProofShape, UpdateStep;
    UntouchedUpdates(w.dir[k], w.dir[k], k, move);
    if ProofShape(move.m) && k == KeyOf(move.m) {
      var begun := Opened(w.dir, move.m, move.now);
      UntouchedUpdates(w.dir[k], begun, k, move);
      var route := WithProof(begun, move.m, move.now);
      UntouchedUpdates(w.dir[k], route, k, move);
      if QueueUpdate(route, Paused, move.now).Ok? {
        QueueSteps(w.dir[k], route, Paused, move.now, k, move);
      }
    }
  }

  lemma ExpireUpdates(a: Route, now: int, k: Key, move: Move)
    requires ExpireRoute(a, now).Ok? && move.ClaimMove? && now == move.now
    ensures UpdateStep(a, ExpireRoute(a, now).value, k, move)
  {
    hide QueueUpdate, UpdateStep;
    UntouchedUpdates(a, a, k, move);
    UntouchedUpdates(a, a.(pending := None), k, move);
    if a.pending.Some? && a.pending.value.expiresAt <= now {
      QueueSteps(a, a.(pending := None), Active, now, k, move);
    }
  }

  lemma FinishUpdates(a: Route, k: Key, move: Move)
    requires move.FinishMove?
    requires FinishRoute(a, move.p, move.status, move.proof, move.identity, move.generation, move.now).Ok?
    ensures var b := FinishRoute(a, move.p, move.status, move.proof, move.identity, move.generation, move.now).value;
            UpdateStep(a, b, k, move)
  {
    hide QueueUpdate, Switch, Refusal, ValidProofId, AllHex, UpdateStep;
    UntouchedUpdates(a, a, k, move);
    if a.pending.Some? && a.pending.value.id == move.p.id {
      var current := a.pending.value;
      if current.expiresAt <= move.now || Refusal(move.status) {
        UntouchedUpdates(a, a.(pending := None), k, move);
        QueueSteps(a, a.(pending := None), Active, move.now, k, move);
      } else {
        var refreshed := Refreshed(current, move.proof, move.identity);
        UntouchedUpdates(a, a.(pending := Some(refreshed.(nextPoll := move.now + 1))), k, move);
        UntouchedUpdates(a, a.(pending := Some(refreshed)), k, move);
        if Bound(current, move.proof, move.now) && move.proof.status != Some("awaiting_owner_confirmation") {
          SwitchQueues(a, a.(pending := Some(refreshed)),
                       Selection(move.p.hubId, move.identity, move.proof.sessionId.value, move.generation, move.now),
                       move.now, k, move);
        }
      }
    }
  }

  lemma MoveUpdates(w: World, move: Move, k: Key)
    requires Allowed(w, move) && k in w.dir
    ensures k in Apply(w, move).dir && UpdateStep(w.dir[k], Apply(w, move).dir[k], k, move)
  {
    hide CanExpire, ExpireRoute, Begin, FinishRoute, Requeued, NewlyQueued, GivenUp;
    match move
    case BeginMove(m, checked, now) => BeginUpdates(w, move, k);
    case ClaimMove(at, now) =>
      if CanExpire(w.dir, now) {
        ExpiredUpdates(w.dir, at, now, k, move);
      }
    case FinishMove(p, status, proof, identity, generation, now) =>
      if FinishRoute(w.dir[k], p, status, proof, identity, generation, now).Ok? {
        FinishUpdates(w.dir[k], k, move);
      }
    case _ =>
  }

  lemma ExpiredUpdates(d: Directory, at: Option<Key>, now: int, k: Key, move: Move)
    requires CanExpire(d, now) && k in d && move.ClaimMove? && now == move.now
    requires at.Some? ==> at.value in d && ExpireAll(d, now)[at.value].pending.Some?
    ensures var b := (if at.Some? then Polled(ExpireAll(d, now), at.value, now) else ExpireAll(d, now))[k];
            UpdateStep(d[k], b, k, move)
  {
    hide ExpireRoute;
    ExpireUpdates(d[k], now, k, move);
  }

  lemma Numbers(w: World, id: UpdateId)
    requires Inv(w) && OnRecord(w.dir, id)
    ensures id.revision <= w.dir[id.k].revision
  {
    hide StatusOk, DeliveryOk, ActiveOk;
    KnownNumbers(id.k, w.dir[id.k], w.queued[id.k], w.used);
  }

  // The update still on record is the one that was, its poll time apart.
  lemma OneUpdateStep(w: World, move: Move, id: UpdateId)
    requires Allowed(w, move) && id.k in w.dir && id.revision <= w.dir[id.k].revision
    requires OnRecord(Apply(w, move).dir, id)
    ensures OnRecord(w.dir, id)
    ensures Apply(w, move).dir[id.k].updates[id.generation].nextPoll
            == if UpdatePick(w, move) == Some(id) then move.now + 10 else w.dir[id.k].updates[id.generation].nextPoll
  {
    hide Apply, Allowed;
    MoveUpdates(w, move, id.k);
  }

  lemma SendsInTime(w: World, move: Move)
    requires Allowed(w, move) && move.SendMove?
    ensures UpdatePick(w, move).Some? && OnRecord(w.dir, UpdatePick(w, move).value) && w.clock <= move.now
    ensures forall id :: OnRecord(w.dir, id) && w.dir[id.k].updates[id.generation].nextPoll <= move.now ==>
                           w.dir[move.k].updates[move.g].nextPoll <= w.dir[id.k].updates[id.generation].nextPoll
  {
  }

  lemma UpdateWaits(w: World, move: Move, r: UpdateId, due: int)
    requires Inv(w) && Allowed(w, move) && OnRecord(w.dir, r)
    requires w.dir[r.k].updates[r.generation].nextPoll == due <= w.clock && UpdatePick(w, move) != Some(r)
    ensures Waits(UpdateTimes(w.dir), UpdatePick(w, move), UpdateTimes(Apply(w, move).dir), r, due)
  {
    hide Inv, Apply, Allowed, UpdateTimes;
    var before, after := UpdateTimes(w.dir), UpdateTimes(Apply(w, move).dir);
    if move.SendMove? {
      SendsInTime(w, move);
    }
    forall id | id in before && id in after
      ensures after[id] == if UpdatePick(w, move) == Some(id) then move.now + 10 else before[id]
    {
      Numbers(w, id);
      OneUpdateStep(w, move, id);
    }
  }

  lemma {:induction false} NumbersLast(worlds: seq<World>, moves: seq<Move>, id: UpdateId, a: nat, b: nat)
    requires IsRun(worlds, moves) && a <= b < |worlds| && OnRecord(worlds[a].dir, id)
    ensures id.k in worlds[b].dir && id.revision <= worlds[b].dir[id.k].revision
    decreases b
  {
    hide Apply, Allowed, Inv;
    if a < b {
      NumbersLast(worlds, moves, id, a, b - 1);
      MoveSteps(worlds[b - 1], moves[b - 1], id.k);
    } else {
      RunKeeps(worlds, moves, a);
      Numbers(worlds[a], id);
    }
  }

  // The update stays on record in worlds[i..j].
  ghost predicate StaysOnRecord(worlds: seq<World>, id: UpdateId, i: nat, j: nat)
    requires j <= |worlds|
  {
    forall t :: i <= t < j ==> OnRecord(worlds[t].dir, id)
  }

  // Every update on record when one was sent in moves[i..j] is in the set.
  ghost predicate CoversUpdates(updates: set<UpdateId>, worlds: seq<World>, moves: seq<Move>, i: nat, j: nat)
    requires |worlds| == |moves| + 1 && j <= |moves|
  {
    forall t, id :: i <= t < j && moves[t].SendMove? && OnRecord(worlds[t].dir, id) ==> id in updates
  }

  lemma UpdateWaitsIn(worlds: seq<World>, moves: seq<Move>, r: UpdateId, i: nat, j: nat, t: nat, due: int,
                      updates: set<UpdateId>)
    requires IsRun(worlds, moves) && i <= t < j <= |moves| && StaysOnRecord(worlds, r, i, j)
    requires due <= worlds[i].clock && CoversUpdates(updates, worlds, moves, i, j)
    ensures OnRecord(worlds[t].dir, r)
    ensures worlds[t].dir[r.k].updates[r.generation].nextPoll == due && UpdatePick(worlds[t], moves[t]) != Some(r) ==>
              Waits(UpdateTimes(worlds[t].dir), UpdatePick(worlds[t], moves[t]), UpdateTimes(worlds[t + 1].dir), r, due)
    ensures UpdatePick(worlds[t], moves[t]).Some? ==> UpdatePick(worlds[t], moves[t]).value in updates
  {
    hide Apply, Allowed, Inv, UpdateTimes, Waits;
    RunKeeps(worlds, moves, t);
    UsedGrows(worlds, moves, i, t);
    if worlds[t].dir[r.k].updates[r.generation].nextPoll == due && UpdatePick(worlds[t], moves[t]) != Some(r) {
      UpdateWaits(worlds[t], moves[t], r, due);
    }
  }

  lemma UpdatesLeaveForGood(worlds: seq<World>, moves: seq<Move>, i: nat, j: nat)
    requires IsRun(worlds, moves) && i <= j < |worlds|
    ensures LeavesForGood(TimesOfUpdates(worlds, i, j))
  {
    hide Apply, Allowed, TimesOfUpdates, UpdateTimes;
    var times := TimesOfUpdates(worlds, i, j);
    forall a, b, id | 0 <= a <= b < |times| - 1 && id in times[a] && id !in times[b]
      ensures id !in times[b + 1]
    {
      NumbersLast(worlds, moves, id, i + a, i + b);
      if id in times[b + 1] {
        OneUpdateStep(worlds[i + b], moves[i + b], id);
      }
    }
  }

  // An update that is due and stays on record is sent within as many deliveries
  // as there are updates.
  lemma UpdatesHaveTheirTurn(worlds: seq<World>, moves: seq<Move>, r: UpdateId, i: nat, j: nat,
                             updates: set<UpdateId>)
    requires IsRun(worlds, moves) && i <= j <= |moves| && StaysOnRecord(worlds, r, i, j)
    requires OnRecord(worlds[i].dir, r) && worlds[i].dir[r.k].updates[r.generation].nextPoll <= worlds[i].clock
    requires r in updates && CoversUpdates(updates, worlds, moves, i, j)
    requires |Turns(UpdatePicks(worlds, moves, i, j))| >= |updates|
    ensures r in Turns(UpdatePicks(worlds, moves, i, j))
  {
    hide Apply, Allowed, StaysOnRecord, CoversUpdates, Waits, UpdatePick, UpdatePicks, TimesOfUpdates, UpdateTimes,
         Turns, LeavesForGood;
    var due := worlds[i].dir[r.k].updates[r.generation].nextPoll;
    var picks := UpdatePicks(worlds, moves, i, j);
    var times := TimesOfUpdates(worlds, i, j);
    forall t | 0 <= t < j - i
      ensures r in times[t]
      ensures times[t][r] == due && picks[t] != Some(r) ==> Waits(times[t], picks[t], times[t + 1], r, due)
      ensures picks[t].Some? ==> picks[t].value in updates
    {
      UpdateWaitsIn(worlds, moves, r, i, j, i + t, due, updates);
    }
    UpdatesLeaveForGood(worlds, moves, i, j);
    EveryoneHasATurn(times, picks, r, due, updates);
  }

  // What a move queues is due at once, so nothing holds back its first delivery.
  lemma NewUpdatesAreDue(worlds: seq<World>, moves: seq<Move>, i: nat, id: UpdateId)
    requires IsRun(worlds, moves) && i < |moves| && id.k in worlds[i].dir
    requires OnRecord(worlds[i + 1].dir, id) && !OnRecord(worlds[i].dir, id)
    ensures var u := worlds[i + 1].dir[id.k].updates[id.generation];
            && u.nextPoll == 0 && Queues(moves[i]) && u.issuedAt == moves[i].now
            && u.revision > worlds[i].dir[id.k].revision
  {
    hide Apply, Allowed;
    MoveUpdates(worlds[i], moves[i], id.k);
  }
}
