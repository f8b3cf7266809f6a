// Pending bindings take turns: over any run, whatever other operations come
// between the claims, a binding that waits for an answer is handed out within one
// claim of every other. A device that never confirms keeps no phone waiting.
module NaviBindingTurns {
  import opened Prelude
  import opened NaviRoutes
  import opened NaviWorld
  import opened NaviSelections
  import opened NaviConfirmation
  import opened NaviExpiry
  import opened Rotation

  // The binding that one phone message asks for.
  datatype BindingId = BindingId(k: Key, id: ProofId, occurred: int)

  predicate Pends(d: Directory, b: BindingId) {
    b.k in d && d[b.k].pending.Some? && d[b.k].pending.value.id == b.id && d[b.k].pending.value.occurred == b.occurred
  }

  function BindingTimes(d: Directory): (times: map<BindingId, int>)
    ensures forall b :: b in times <==> Pends(d, b)
    ensures forall b :: Pends(d, b) ==> times[b] == d[b.k].pending.value.nextPoll
  {
    map k | k in d && d[k].pending.Some? ::
      BindingId(k, d[k].pending.value.id, d[k].pending.value.occurred) := d[k].pending.value.nextPoll
  }

  function BindingPick(w: World, move: Move): Option<BindingId> {
    if move.ClaimMove? && move.at.Some? && move.at.value in w.dir && w.dir[move.at.value].pending.Some? then
      var p := w.dir[move.at.value].pending.value;
      Some(BindingId(move.at.value, p.id, p.occurred))
    else None
  }

  function BindingPicks(worlds: seq<World>, moves: seq<Move>, i: nat, j: nat): (picks: seq<Option<BindingId>>)
    requires |worlds| == |moves| + 1 && i <= j <= |moves|
    ensures |picks| == j - i && forall t :: 0 <= t < j - i ==> picks[t] == BindingPick(worlds[i + t], moves[i + t])
  {
    seq(j - i, t requires 0 <= t < j - i => BindingPick(worlds[i + t], moves[i + t]))
  }

  function TimesOfBindings(worlds: seq<World>, i: nat, j: nat): (times: seq<map<BindingId, int>>)
    requires i <= j < |worlds|
    ensures |times| == j - i + 1 && forall t :: 0 <= t <= j - i ==> times[t] == BindingTimes(worlds[i + t].dir)
  {
    hide BindingTimes;
    seq(j - i + 1, t requires 0 <= t <= j - i => BindingTimes(worlds[i + t].dir))
  }

  // ------------------------------------------------- how one move changes the time

  predicate Answers(move: Move, k: Key) {
    move.FinishMove? && Key(move.p.recipient, move.p.routeKey) == k
  }

  predicate PollStep(a: Option<Pending>, b: Option<Pending>, k: Key, move: Move) {
    b.Some? ==>
      && a.Some? && b.value.id == a.value.id && b.value.occurred == a.value.occurred
      && (if move.ClaimMove? && move.at == Some(k) then b.value.nextPoll == move.now + 10
          else b.value.nextPoll == a.value.nextPoll || (Answers(move, k) && b.value.nextPoll == move.now + 1))
  }

  lemma BeginPoll(w: World, move: Move, k: Key)
    requires move.BeginMove? && k in w.dir
    ensures k in Begin(w.dir, move.m, move.checked, move.now).0
    ensures var after := Begin(w.dir, move.m, move.checked, move.now).0[k];
            CreatesAt(w, move, k) || PollStep(w.dir[k].pending, after.pending, k, move)
  {
    hide QueueUpdate, ProofShape;
    if ProofShape(move.m) && k == KeyOf(move.m) {
      var route := WithProof(Opened(w.dir, move.m, move.now), move.m, move.now);
      if QueueUpdate(route, Paused, move.now).Ok? {
        QueueOnlyQueues(route, Paused, move.now);
      }
    }
  }

  lemma ExpirePoll(route: Route, now: int)
    requires ExpireRoute(route, now).Ok?
    ensures var after := ExpireRoute(route, now).value;
            after.pending == if route.pending.Some? && route.pending.value.expiresAt <= now then None else route.pending
  {
    hide QueueUpdate;
    if route.pending.Some? && route.pending.value.expiresAt <= now {
      QueueOnlyQueues(route.(pending := None), Active, now);
    }
  }

  lemma ClaimPoll(d: Directory, at: Option<Key>, now: int, k: Key, move: Move)
    requires CanExpire(d, now) && k in d && move == ClaimMove(at, now)
    requires at.Some? ==> at.value in d && ExpireAll(d, now)[at.value].pending.Some?
    ensures var after := (if at.Some? then Polled(ExpireAll(d, now), at.value, now) else ExpireAll(d, now))[k];
            PollStep(d[k].pending, after.pending, k, move)
  {
    hide ExpireRoute;
    ExpirePoll(d[k], now);
  }

  lemma FinishPoll(route: Route, k: Key, move: Move)
    requires move.FinishMove? && Answers(move, k)
    requires FinishRoute(route, move.p, move.status, move.proof, move.identity, move.generation, move.now).Ok?
    ensures var after := FinishRoute(route, move.p, move.status, move.proof, move.identity, move.generation,
                                     move.now).value;
            PollStep(route.pending, after.pending, k, move)
  {
    hide QueueUpdate, Switch, Refusal, ValidProofId, AllHex;
    if route.pending.Some? && route.pending.value.id == move.p.id {
      var current := route.pending.value;
      if current.expiresAt <= move.now || Refusal(move.status) {
        QueueOnlyQueues(route.(pending := None), Active, move.now);
      } else if Bound(current, move.proof, move.now) && move.proof.status != Some("awaiting_owner_confirmation") {
        SwitchSteps(route.(pending := Some(Refreshed(current, move.proof, move.identity))),
                    Selection(move.p.hubId, move.identity, move.proof.sessionId.value, move.generation, move.now),
                    move.now);
      }
    }
  }

  lemma MovePoll(w: World, move: Move, k: Key)
    requires Allowed(w, move) && k in w.dir
    ensures k in Apply(w, move).dir
    ensures CreatesAt(w, move, k) || PollStep(w.dir[k].pending, Apply(w, move).dir[k].pending, k, move)
  {
    hide CanExpire, ExpireRoute, Begin, FinishRoute, Requeued, NewlyQueued, GivenUp, CreatesAt;
    match move
    case BeginMove(m, checked, now) => BeginPoll(w, move, k);
    case ClaimMove(at, now) =>
      if CanExpire(w.dir, now) {
        ClaimPoll(w.dir, at, now, k, move);
      }
    case FinishMove(p, status, proof, identity, generation, now) =>
      if Answers(move, k) && FinishRoute(w.dir[k], p, status, proof, identity, generation, now).Ok? {
        FinishPoll(w.dir[k], k, move);
      }
    case _ =>
  }

  // What is handed out has not expired, and was due no later than any other.
  lemma ClaimsInTime(w: World, move: Move)
    requires Allowed(w, move) && move.ClaimMove? && move.at.Some?
    ensures w.clock <= move.now && BindingPick(w, move).Some?
    ensures var b := BindingPick(w, move).value;
            && Pends(w.dir, b) && w.dir[b.k].pending.value.expiresAt > move.now
            && forall c :: Pends(w.dir, c) && w.dir[c.k].pending.value.expiresAt > move.now
                           && w.dir[c.k].pending.value.nextPoll <= move.now ==>
                             w.dir[b.k].pending.value.nextPoll <= w.dir[c.k].pending.value.nextPoll
  {
    hide ExpireRoute;
    forall k | k in w.dir
      ensures ExpireAll(w.dir, move.now)[k].pending
              == if w.dir[k].pending.Some? && w.dir[k].pending.value.expiresAt <= move.now then None
                 else w.dir[k].pending
    {
      ExpirePoll(w.dir[k], move.now);
    }
  }

  // A binding never comes back, short of a gap between two clock readings.
  lemma CreatedOnce(worlds: seq<World>, moves: seq<Move>, b: BindingId, s: nat, t: nat)
    requires IsRun(worlds, moves) && s <= t < |moves| && Pends(worlds[s].dir, b)
    requires CreatesAt(worlds[t], moves[t], b.k) && Pends(worlds[t + 1].dir, b)
    ensures moves[t].now - moves[t].checked > 60
  {
    hide Apply, Allowed, CreatesAt, ProofShape, ProofOf;
    var a := PendingHasMessage(worlds, moves, b.k, s);
    CreationIsPending(worlds[t], moves[t], b.k);
    SameBinding(moves[a], moves[t], worlds[a], worlds[t], b.k);
    ReplayNeedsClockGap(worlds, moves, b.k, a, t);
  }

  lemma SameBinding(first: Move, second: Move, w: World, x: World, k: Key)
    requires CreatesAt(w, first, k) && CreatesAt(x, second, k) && ProofShape(first.m) && ProofShape(second.m)
    requires ProofOf(first.m.text).value == ProofOf(second.m.text).value
    requires first.m.timestamp.value == second.m.timestamp.value
    ensures SameMessage(first.m, second.m)
  {
    hide ProofOf, Creates;
  }

  // ------------------------------------------------------------ bounded waiting

  // No call's two clock readings in moves[i..j] lie more than 60 s apart.
  ghost predicate Prompt(moves: seq<Move>, i: nat, j: nat)
    requires j <= |moves|
  {
    forall t :: i <= t < j && moves[t].BeginMove? ==> moves[t].now - moves[t].checked <= 60
  }

  // The binding stays pending in moves[i..j], unexpired and unanswered.
  ghost predicate StaysPending(worlds: seq<World>, moves: seq<Move>, r: BindingId, i: nat, j: nat)
    requires |worlds| == |moves| + 1 && j <= |moves|
  {
    forall t :: i <= t < j ==>
                  && Pends(worlds[t].dir, r) && !Answers(moves[t], r.k)
                  && (moves[t].ClaimMove? ==> worlds[t].dir[r.k].pending.value.expiresAt > moves[t].now)
  }

  // Every unexpired binding when one was handed out in moves[i..j] is in the set.
  ghost predicate CoversBindings(bindings: set<BindingId>, worlds: seq<World>, moves: seq<Move>, i: nat, j: nat)
    requires |worlds| == |moves| + 1 && j <= |moves|
  {
    forall t, b :: i <= t < j && moves[t].ClaimMove? && Pends(worlds[t].dir, b)
                   && worlds[t].dir[b.k].pending.value.expiresAt > moves[t].now ==>
                     b in bindings
  }

  // The binding still pending is the one that was, its poll time apart.
  lemma OneBindingStep(w: World, move: Move, b: BindingId)
    requires Allowed(w, move) && b.k in w.dir && !CreatesAt(w, move, b.k) && Pends(Apply(w, move).dir, b)
    ensures Pends(w.dir, b)
    ensures var poll := Apply(w, move).dir[b.k].pending.value.nextPoll;
            if BindingPick(w, move) == Some(b) then poll == move.now + 10
            else poll == w.dir[b.k].pending.value.nextPoll || (Answers(move, b.k) && poll == move.now + 1)
    ensures move.FinishMove? ==> w.clock <= move.now
  {
    hide Apply, CreatesAt, CanExpire, ExpireAll;
    MovePoll(w, move, b.k);
  }

  lemma BindingWaits(w: World, move: Move, r: BindingId, due: int)
    requires Allowed(w, move) && Pends(w.dir, r) && w.dir[r.k].pending.value.nextPoll == due <= w.clock
    requires !Answers(move, r.k) && BindingPick(w, move) != Some(r)
    requires move.ClaimMove? ==> w.dir[r.k].pending.value.expiresAt > move.now
    requires forall b :: Pends(w.dir, b) && Pends(Apply(w, move).dir, b) ==> !CreatesAt(w, move, b.k)
    ensures Waits(BindingTimes(w.dir), BindingPick(w, move), BindingTimes(Apply(w, move).dir), r, due)
  {
    hide Apply, Allowed, BindingTimes, CreatesAt;
    var before, after := BindingTimes(w.dir), BindingTimes(Apply(w, move).dir);
    if BindingPick(w, move).Some? {
      ClaimsInTime(w, move);
    }
    forall b | b in before && b in after
      ensures if BindingPick(w, move) == Some(b) then after[b] == move.now + 10
              else after[b] == before[b] || (Answers(move, b.k) && after[b] == move.now + 1 > w.clock)
    {
      OneBindingStep(w, move, b);
    }
  }

  lemma BindingWaitsIn(worlds: seq<World>, moves: seq<Move>, r: BindingId, i: nat, j: nat, t: nat, due: int,
                       bindings: set<BindingId>)
    requires IsRun(worlds, moves) && i <= t < j <= |moves| && StaysPending(worlds, moves, r, i, j)
    requires due <= worlds[i].clock && Prompt(moves, i, j) && CoversBindings(bindings, worlds, moves, i, j)
    ensures Pends(worlds[t].dir, r)
    ensures worlds[t].dir[r.k].pending.value.nextPoll == due && BindingPick(worlds[t], moves[t]) != Some(r) ==>
              Waits(BindingTimes(worlds[t].dir), BindingPick(worlds[t], moves[t]), BindingTimes(worlds[t + 1].dir), r,
                    due)
    ensures BindingPick(worlds[t], moves[t]).Some? ==> BindingPick(worlds[t], moves[t]).value in bindings
  {
    hide Apply, Allowed, BindingTimes, Waits, Creates;
    UsedGrows(worlds, moves, i, t);
    if BindingPick(worlds[t], moves[t]).Some? {
      ClaimsInTime(worlds[t], moves[t]);
    }
    if worlds[t].dir[r.k].pending.value.nextPoll == due && BindingPick(worlds[t], moves[t]) != Some(r) {
      forall b | Pends(worlds[t].dir, b) && Pends(worlds[t + 1].dir, b)
        ensures !CreatesAt(worlds[t], moves[t], b.k)
      {
        if CreatesAt(worlds[t], moves[t], b.k) {
          CreatedOnce(worlds, moves, b, t, t);
        }
      }
      BindingWaits(worlds[t], moves[t], r, due);
    }
  }

  lemma BindingsLeaveForGood(worlds: seq<World>, moves: seq<Move>, i: nat, j: nat)
    requires IsRun(worlds, moves) && i <= j <= |moves| && Prompt(moves, i, j)
    ensures LeavesForGood(TimesOfBindings(worlds, i, j))
  {
    hide Apply, Allowed, TimesOfBindings, BindingTimes, Creates;
    var times := TimesOfBindings(worlds, i, j);
    forall a, b, id | 0 <= a <= b < |times| - 1 && id in times[a] && id !in times[b]
      ensures id !in times[b + 1]
    {
      if id in times[b + 1] {
        PendingIsKnown(worlds, moves, id, i + a, i + b);
        if CreatesAt(worlds[i + b], moves[i + b], id.k) {
          CreatedOnce(worlds, moves, id, i + a, i + b);
        } else {
          OneBindingStep(worlds[i + b], moves[i + b], id);
        }
      }
    }
  }

  lemma {:induction false} PendingIsKnown(worlds: seq<World>, moves: seq<Move>, b: BindingId, s: nat, t: nat)
    requires IsRun(worlds, moves) && s <= t < |worlds| && Pends(worlds[s].dir, b)
    ensures b.k in worlds[t].dir
    decreases t
  {
    hide Apply, Allowed;
    if s < t {
      PendingIsKnown(worlds, moves, b, s, t - 1);
      MoveSteps(worlds[t - 1], moves[t - 1], b.k);
    }
  }

  // A binding that is due, and stays pending and unanswered, is handed out within
  // as many claims as there are bindings.
  lemma BindingsHaveTheirTurn(worlds: seq<World>, moves: seq<Move>, r: BindingId, i: nat, j: nat,
                              bindings: set<BindingId>)
    requires IsRun(worlds, moves) && i <= j <= |moves| && Prompt(moves, i, j)
    requires StaysPending(worlds, moves, r, i, j)
    requires Pends(worlds[i].dir, r) && worlds[i].dir[r.k].pending.value.nextPoll <= worlds[i].clock
    requires r in bindings && CoversBindings(bindings, worlds, moves, i, j)
    requires |Turns(BindingPicks(worlds, moves, i, j))| >= |bindings|
    ensures r in Turns(BindingPicks(worlds, moves, i, j))
  {
    hide Apply, Allowed, Prompt, StaysPending, CoversBindings, Waits, BindingPick, BindingPicks, TimesOfBindings,
         BindingTimes, Turns, LeavesForGood;
    var due := worlds[i].dir[r.k].pending.value.nextPoll;
    var picks := BindingPicks(worlds, moves, i, j);
    var times := TimesOfBindings(worlds, i, j);
    forall t | 0 <= t < j - i
      ensures r in times[t]
      ensures times[t][r] == due && picks[t] != Some(r) ==> Waits(times[t], picks[t], times[t + 1], r, due)
      ensures picks[t].Some? ==> picks[t].value in bindings
    {
      BindingWaitsIn(worlds, moves, r, i, j, i + t, due, bindings);
    }
    BindingsLeaveForGood(worlds, moves, i, j);
    EveryoneHasATurn(times, picks, r, due, bindings);
  }

  // While a binding waits, every claim hands one out.
  lemma ClaimsHandOut(worlds: seq<World>, moves: seq<Move>, r: BindingId, t: nat)
    requires IsRun(worlds, moves) && t < |moves| && 2 * t < MAX_REVISION && moves[t].ClaimMove?
    requires Pends(worlds[t].dir, r) && worlds[t].dir[r.k].pending.value.nextPoll <= worlds[t].clock
    requires worlds[t].dir[r.k].pending.value.expiresAt > moves[t].now
    ensures BindingPick(worlds[t], moves[t]).Some?
  {
    hide Apply, ExpireRoute;
    ExpiryNeverBlocks(worlds, moves, t, moves[t].now);
    ExpirePoll(worlds[t].dir[r.k], moves[t].now);
    assert Allowed(worlds[t], moves[t]);
    if moves[t].at.Some? {
      ClaimsInTime(worlds[t], moves[t]);
    }
  }
}
