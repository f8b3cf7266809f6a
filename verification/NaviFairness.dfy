// Routes take turns: over any run, whatever other operations come between the
// notification polls, no route that stays eligible waits for more than one turn
// of each eligible route, and no route is polled twice within 15 seconds.
module NaviFairness {
  import opened Prelude
  import opened NaviRoutes
  import opened NaviWorld
  import opened NaviSelections
  import opened Rotation

  predicate Polls(move: Move, k: Key) {
    move.NotifyMove? && move.k == k
  }

  lemma NotifiesInTime(w: World, move: Move)
    requires Allowed(w, move) && move.NotifyMove?
    ensures w.clock <= move.now && move.k in w.dir && DueRoute(w.dir[move.k], move.now)
    ensures Apply(w, move).clock == move.now
    ensures forall r :: r in w.dir && DueRoute(w.dir[r], move.now) ==>
                          w.dir[move.k].notificationNextPoll <= w.dir[r].notificationNextPoll
  {
  }

  lemma {:induction false} PollsAreApart(worlds: seq<World>, moves: seq<Move>, k: Key, i: nat, j: nat)
    requires IsRun(worlds, moves) && i < j < |worlds| && Polls(moves[i], k)
    ensures k in worlds[j].dir && worlds[j].dir[k].notificationNextPoll >= moves[i].now + 15
    ensures worlds[j].clock >= moves[i].now
    decreases j
  {
    hide Apply, Allowed;
    if moves[j - 1].NotifyMove? {
      NotifiesInTime(worlds[j - 1], moves[j - 1]);
    }
    ClockAdvances(worlds[j - 1], moves[j - 1]);
    if i + 1 < j {
      PollsAreApart(worlds, moves, k, i, j - 1);
      MoveSteps(worlds[j - 1], moves[j - 1], k);
    } else {
      MoveSteps(worlds[i], moves[i], k);
    }
  }

  lemma NeverTwiceWithin15Seconds(worlds: seq<World>, moves: seq<Move>, k: Key, i: nat, j: nat)
    requires IsRun(worlds, moves) && i < j < |moves| && Polls(moves[i], k) && Polls(moves[j], k)
    ensures moves[j].now >= moves[i].now + 15
  {
    hide Apply, Allowed;
    PollsAreApart(worlds, moves, k, i, j);
    NotifiesInTime(worlds[j], moves[j]);
  }

  // ------------------------------------------------------ notification polls

  function RouteTimes(d: Directory): (times: map<Key, int>)
    ensures times.Keys == d.Keys && forall k :: k in d ==> times[k] == d[k].notificationNextPoll
  {
    map k | k in d :: d[k].notificationNextPoll
  }

  function RoutePick(move: Move): Option<Key> {
    if move.NotifyMove? then Some(move.k) else None
  }

  function RoutePicks(moves: seq<Move>, i: nat, j: nat): (picks: seq<Option<Key>>)
    requires i <= j <= |moves|
    ensures |picks| == j - i && forall t :: 0 <= t < j - i ==> picks[t] == RoutePick(moves[i + t])
  {
    seq(j - i, t requires 0 <= t < j - i => RoutePick(moves[i + t]))
  }

  // A selected route that is named, with no switch pending.
  predicate MayBeAsked(route: Route, now: int) {
    && route.active.Some? && route.recipient != "" && route.routeKey != ""
    && (route.pending.None? || route.pending.value.expiresAt <= now)
  }

  // At every poll in moves[i..j] the route may be polled but for its turn.
  ghost predicate StaysEligible(worlds: seq<World>, moves: seq<Move>, r: Key, i: nat, j: nat)
    requires |worlds| == |moves| + 1 && j <= |moves|
  {
    forall t :: i <= t < j && moves[t].NotifyMove? ==> r in worlds[t].dir && MayBeAsked(worlds[t].dir[r], moves[t].now)
  }

  // Every route that could be polled somewhere in moves[i..j] is in the set.
  ghost predicate Covers(eligible: set<Key>, worlds: seq<World>, moves: seq<Move>, i: nat, j: nat)
    requires |worlds| == |moves| + 1 && j <= |moves|
  {
    forall t, k :: i <= t < j && moves[t].NotifyMove? && k in worlds[t].dir ==>
                     MayBeAsked(worlds[t].dir[k], moves[t].now) ==> k in eligible
  }

  lemma RouteWaits(w: World, move: Move, r: Key, due: int)
    requires Allowed(w, move) && r in w.dir && w.dir[r].notificationNextPoll == due <= w.clock
    requires move.NotifyMove? ==> MayBeAsked(w.dir[r], move.now)
    requires RoutePick(move) != Some(r)
    ensures Waits(RouteTimes(w.dir), RoutePick(move), RouteTimes(Apply(w, move).dir), r, due)
  {
    hide Apply, Allowed;
    if move.NotifyMove? {
      NotifiesInTime(w, move);
      assert DueRoute(w.dir[r], move.now);
    }
    forall k | k in w.dir
      ensures k in Apply(w, move).dir
      ensures Apply(w, move).dir[k].notificationNextPoll == PollAfter(w.dir[k], k, move)
    {
      MoveSteps(w, move, k);
    }
  }

  lemma {:induction false} RoutesStay(worlds: seq<World>, moves: seq<Move>, i: nat, j: nat)
    requires IsRun(worlds, moves) && i <= j < |worlds|
    ensures worlds[i].dir.Keys <= worlds[j].dir.Keys
    decreases j
  {
    hide Apply, Allowed;
    if i < j {
      RoutesStay(worlds, moves, i, j - 1);
      forall k | k in worlds[i].dir
        ensures k in worlds[j].dir
      {
        MoveSteps(worlds[j - 1], moves[j - 1], k);
      }
    }
  }

  lemma RouteWaitsIn(worlds: seq<World>, moves: seq<Move>, r: Key, i: nat, j: nat, t: nat, eligible: set<Key>)
    requires IsRun(worlds, moves) && i <= t < j <= |moves| && StaysEligible(worlds, moves, r, i, j)
    requires r in worlds[i].dir && worlds[i].dir[r].notificationNextPoll <= worlds[i].clock
    requires Covers(eligible, worlds, moves, i, j)
    ensures worlds[i].dir.Keys <= worlds[t].dir.Keys
    ensures var due := worlds[i].dir[r].notificationNextPoll;
            worlds[t].dir[r].notificationNextPoll == due && RoutePick(moves[t]) != Some(r) ==>
              Waits(RouteTimes(worlds[t].dir), RoutePick(moves[t]), RouteTimes(worlds[t + 1].dir), r, due)
    ensures moves[t].NotifyMove? ==> moves[t].k in eligible
  {
    hide Apply, Allowed, RouteTimes, Waits;
    var due := worlds[i].dir[r].notificationNextPoll;
    RoutesStay(worlds, moves, i, t);
    UsedGrows(worlds, moves, i, t);
    if moves[t].NotifyMove? {
      NotifiesInTime(worlds[t], moves[t]);
    }
    if worlds[t].dir[r].notificationNextPoll == due && RoutePick(moves[t]) != Some(r) {
      RouteWaits(worlds[t], moves[t], r, due);
    }
  }

  function TimesOfRoutes(worlds: seq<World>, i: nat, j: nat): (times: seq<map<Key, int>>)
    requires i <= j < |worlds|
    ensures |times| == j - i + 1 && forall t :: 0 <= t <= j - i ==> times[t] == RouteTimes(worlds[i + t].dir)
  {
    seq(j - i + 1, t requires 0 <= t <= j - i => RouteTimes(worlds[i + t].dir))
  }

  // A route that is due and stays eligible is polled within as many polls as
  // there are eligible routes.
  lemma BoundedWaiting(worlds: seq<World>, moves: seq<Move>, r: Key, i: nat, j: nat, eligible: set<Key>)
    requires IsRun(worlds, moves) && i <= j <= |moves| && StaysEligible(worlds, moves, r, i, j)
    requires r in worlds[i].dir && worlds[i].dir[r].notificationNextPoll <= worlds[i].clock
    requires r in eligible
    requires Covers(eligible, worlds, moves, i, j)
    requires |Turns(RoutePicks(moves, i, j))| >= |eligible|
    ensures r in Turns(RoutePicks(moves, i, j))
  {
    hide Apply, Allowed, StaysEligible, Covers, Waits, RoutePick, RoutePicks, TimesOfRoutes, RouteTimes, Turns;
    var due := worlds[i].dir[r].notificationNextPoll;
    var picks := RoutePicks(moves, i, j);
    var times := TimesOfRoutes(worlds, i, j);
    forall t | 0 <= t < j - i
      ensures r in times[t]
      ensures times[t][r] == due && picks[t] != Some(r) ==> Waits(times[t], picks[t], times[t + 1], r, due)
      ensures picks[t].Some? ==> picks[t].value in eligible
    {
      RouteWaitsIn(worlds, moves, r, i, j, i + t, eligible);
      PickIs(moves[i + t]);
    }
    forall a, b | 0 <= a <= b <= j - i
      ensures times[a].Keys <= times[b].Keys
    {
      RoutesStay(worlds, moves, i + a, i + b);
    }
    EveryoneHasATurn(times, picks, r, due, eligible);
  }

  lemma PickIs(move: Move)
    ensures RoutePick(move).Some? ==> move.NotifyMove? && RoutePick(move).value == move.k
  {
  }
}
