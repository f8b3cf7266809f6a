// A run in which a hub is left believing its selection is paused: a phone
// selects one device, then a second, then presents a new proof for the first; a
// late answer to a call made under the first selection withdraws that device's
// identity before it confirms again.
module NaviWitness {
  import opened Prelude
  import opened NaviRoutes
  import opened NaviWorld
  import opened NaviSelections
  import opened NaviConvergence
  import opened NaviDecisions

  // Different proofs of one phone, on one route, written in the same second.
  predicate Rivals(m: Inbound, n: Inbound) {
    && ProofShape(m) && ProofShape(n) && KeyOf(m) == KeyOf(n) && ProofOf(m.text) != ProofOf(n.text)
    && m.timestamp == n.timestamp && m.timestamp.value >= 0
  }

  // The first and the last of three proofs name the same hub.
  predicate ThereAndBack(first: Inbound, second: Inbound, third: Inbound) {
    && Rivals(first, second) && Rivals(second, third) && Rivals(first, third)
    && ProofOf(first.text).value.hub == ProofOf(third.text).value.hub
  }

  // A phone's message at time `t` that names a hub.
  function MessageTo(hub: string, token: string, t: nat): Inbound {
    Inbound("whatsapp", "p2p", "1234567", "1234567", "NAVI " + hub + "." + token, "id", "r", Some(t))
  }

  function Token(c: char): string {
    seq(64, _ => c)
  }

  lemma MessageIsProof(hub: string, c: char, t: nat)
    requires ValidHubId(hub) && 'a' <= c <= 'f'
    ensures ProofShape(MessageTo(hub, Token(c), t))
    ensures ProofOf(MessageTo(hub, Token(c), t).text).value == ProofId(hub, Token(c))
  {
    var token := Token(c);
    var text := MessageTo(hub, token, t).text;
    assert text[0] == 'N' && text[|text| - 1] == c;
    assert Trim(text) == text;
    assert "NAVI " <= text && text[5..] == hub + "." + token;
    SplitAtTheDot(hub, token);
    assert Utf8Len("r") == 1;
  }

  // Three such messages for any two hubs at any time.
  lemma RivalsExist(first: string, second: string, t: nat)
    requires ValidHubId(first) && ValidHubId(second)
    ensures ThereAndBack(MessageTo(first, Token('a'), t), MessageTo(second, Token('b'), t),
                         MessageTo(first, Token('c'), t))
  {
    hide ProofShape, ValidHubId, ProofOf;
    MessageIsProof(first, 'a', t);
    MessageIsProof(second, 'b', t);
    MessageIsProof(first, 'c', t);
    assert Token('a')[0] != Token('b')[0] && Token('b')[0] != Token('c')[0] && Token('a')[0] != Token('c')[0];
  }

  predicate Device(session: string, identity: string) {
    ValidProofId(session) && |identity| == 64 && AllHex(identity)
  }

  // ------------------------------------------------ runs the callers can produce

  // The pending binding that poll `i` handed out.
  ghost predicate HandedOut(worlds: seq<World>, moves: seq<Move>, i: nat, p: Pending)
    requires |worlds| == |moves| + 1 && i < |moves|
  {
    && moves[i].ClaimMove? && moves[i].at.Some?
    && moves[i].at.value in worlds[i + 1].dir && worlds[i + 1].dir[moves[i].at.value].pending == Some(p)
  }

  // A hub is asked on behalf of a selection that has just passed the check of
  // outbound messages, or that a due route is using, which comes to the same.
  ghost predicate AskedUnder(worlds: seq<World>, i: nat, k: Key, s: Selection, at: int)
    requires i < |worlds|
  {
    worlds[i].clock <= at && Check(worlds[i].dir, k, s, at).Ok?
  }

  // An answer is about a binding handed out before, and an identity is withdrawn
  // by the selection under which a hub was asked.
  ghost predicate Called(worlds: seq<World>, moves: seq<Move>, t: nat)
    requires |worlds| == |moves| + 1 && t < |moves|
  {
    match moves[t]
    case FinishMove(p, _, _, _, _, _) => exists i: nat :: i < t && HandedOut(worlds, moves, i, p)
    case InvalidateMove(s) => exists i: nat, k, at :: i <= t && AskedUnder(worlds, i, k, s, at)
    case _ => true
  }

  ghost predicate IsCalledRun(worlds: seq<World>, moves: seq<Move>) {
    IsRun(worlds, moves) && forall t :: 0 <= t < |moves| ==> Called(worlds, moves, t)
  }

  function Last(worlds: seq<World>): World
    requires worlds != []
  {
    worlds[|worlds| - 1]
  }

  lemma CalledStays(worlds: seq<World>, moves: seq<Move>, w: World, move: Move, t: nat)
    requires |worlds| == |moves| + 1 && t < |moves| && Called(worlds, moves, t)
    ensures Called(worlds + [w], moves + [move], t)
  {
    var more, steps := worlds + [w], moves + [move];
    match moves[t]
    case FinishMove(p, _, _, _, _, _) =>
      var i: nat :| i < t && HandedOut(worlds, moves, i, p);
      assert HandedOut(more, steps, i, p);
    case InvalidateMove(s) =>
      var i: nat, k, at :| i <= t && AskedUnder(worlds, i, k, s, at);
      assert AskedUnder(more, i, k, s, at);
    case _ =>
  }

  // One more move.
  lemma Extend(worlds: seq<World>, moves: seq<Move>, move: Move)
    requires IsCalledRun(worlds, moves) && Allowed(Last(worlds), move)
    requires Called(worlds + [Apply(Last(worlds), move)], moves + [move], |moves|)
    ensures IsCalledRun(worlds + [Apply(Last(worlds), move)], moves + [move])
  {
    hide Apply, Allowed, Called;
    var w := Apply(Last(worlds), move);
    forall t | 0 <= t < |moves| + 1 ensures Called(worlds + [w], moves + [move], t) {
      if t < |moves| {
        CalledStays(worlds, moves, w, move, t);
      }
    }
  }

  // ---------------------------------------------------- a phone selects a device

  // One phone, one route: nothing pending, these proofs seen, and room to spare.
  predicate Idle(d: Directory, k: Key, t: int, ids: set<ProofId>, load: nat) {
    && d.Keys <= {k}
    && k.recipient != "" && k.routeKey != ""
    && (k !in d ==> ids == {})
    && (k in d ==> Calm(d[k], k, t, ids, load) && d[k].pending.None?)
  }

  predicate Calm(route: Route, k: Key, t: int, ids: set<ProofId>, load: nat) {
    && route.recipient == k.recipient && route.routeKey == k.routeKey
    && route.seen.Keys == ids && (forall id :: id in ids ==> route.seen[id] > t)
    && route.newestProofAt <= t
    && |route.updates| <= load && route.revision <= load
  }

  lemma QueueGrows(route: Route, status: RouteStatus, now: int, load: nat)
    requires |route.updates| <= load && route.revision <= load && load < MAX_UPDATES
    ensures QueueUpdate(route, status, now).Ok?
    ensures var after := QueueUpdate(route, status, now).value;
            && after == route.(revision := after.revision, updates := after.updates)
            && |after.updates| <= load + 1 && after.revision <= load + 1
  {
    if route.active.Some? {
      var g := route.active.value.generation;
      var u := RouteUpdate(route.active.value, route.recipient, route.routeKey, route.revision + 1, status, now, 0);
      assert route.updates[g := u].Keys == route.updates.Keys + {g};
      assert |route.updates[g := u]| == |route.updates[g := u].Keys|;
      assert |route.updates.Keys + {g}| <= |route.updates.Keys| + 1;
    }
  }

  // A calm route remembers nothing it could forget, and a new key finds room.
  lemma RoomFor(d: Directory, m: Inbound, k: Key, ids: set<ProofId>, load: nat)
    requires ProofShape(m) && KeyOf(m) == k && Idle(d, k, m.timestamp.value, ids, load)
    ensures |d| <= 1
    ensures var route := Opened(d, m, m.timestamp.value);
            && route.seen.Keys == ids && |route.seen| == |ids|
            && (forall id :: id in ids ==> route.seen[id] > m.timestamp.value)
            && (k in d ==>
                  route.newestProofAt <= m.timestamp.value && |route.updates| <= load && route.revision <= load)
            && (k !in d ==> route == NEW_ROUTE.(recipient := k.recipient, routeKey := k.routeKey, seen := map[]))
            && route.active == RouteAt(d, k).active
  {
    hide ProofOf, ValidHubId, AllHex;
    var route := Opened(d, m, m.timestamp.value);
    if k in d {
      assert route.seen == d[k].seen;
    } else {
      assert route.seen == map[];
    }
    assert |route.seen| == |route.seen.Keys|;
    SubsetIsSmaller(d.Keys, {k});
    assert |d| == |d.Keys|;
  }

  lemma OpenedNames(d: Directory, m: Inbound, now: int)
    ensures Opened(d, m, now).recipient == m.userId && Opened(d, m, now).routeKey == m.routeKey
  {
  }

  lemma ProofArrives(d: Directory, m: Inbound, k: Key, ids: set<ProofId>, load: nat)
    requires ProofShape(m) && m.timestamp.value >= 0 && KeyOf(m) == k && Idle(d, k, m.timestamp.value, ids, load)
    requires ProofOf(m.text).value !in ids && |ids| < MAX_SEEN && load < MAX_UPDATES
    ensures var t := m.timestamp.value;
            var (after, r) := Begin(d, m, t, t);
            && r.Ok? && after.Keys == {k}
            && Calm(after[k], k, t, ids + {ProofOf(m.text).value}, load + 1)
            && after[k].pending == Some(NewPending(m, t)) && after[k].active == RouteAt(d, k).active
  {
    hide ProofOf, ValidHubId, AllHex, QueueUpdate, Opened;
    var t := m.timestamp.value;
    var route := Opened(d, m, t);
    OpenedNames(d, m, t);
    RoomFor(d, m, k, ids, load);
    QueueGrows(WithProof(route, m, t), Paused, t, load);
  }

  lemma BindingIsHandedOut(d: Directory, k: Key, t: int)
    requires d.Keys == {k} && d[k].pending.Some? && d[k].pending.value.expiresAt > t && d[k].pending.value.nextPoll <= t
    ensures CanExpire(d, t) && ExpireAll(d, t) == d && NextPending(d, k, t)
  {
  }

  lemma DeviceAnswers(d: Directory, k: Key, p: Pending, session: string, identity: string, g: string, t: int,
                      ids: set<ProofId>, load: nat)
    requires d.Keys == {k} && Key(p.recipient, p.routeKey) == k && d[k].pending == Some(p) && p.expiresAt > t
    requires p.occurred == t && p.sessionId.None? && p.hubIdentity.None?
    requires Calm(d[k], k, t, ids, load) && load + 2 <= MAX_UPDATES && Device(session, identity)
    ensures var s := Selection(p.hubId, identity, session, g, t);
            var (after, r) := Finish(d, p, 200, Confirmation(session, t), identity, g, t);
            && r.Ok? && after.Keys == {k} && after[k].active == Some(s) && after[k].pending.None?
            && Calm(after[k], k, t, ids, load + 2)
  {
    hide AllHex, QueueUpdate;
    var s := Selection(p.hubId, identity, session, g, t);
    var route := d[k].(pending := Some(Refreshed(p, Confirmation(session, t), identity)));
    QueueGrows(route, Retired, t, load);
    QueueGrows(QueueUpdate(route, Retired, t).value.(active := Some(s), pending := None), Active, t, load + 1);
  }

  function Confirmation(session: string, t: int): Proof {
    Proof(Some(session), Some(t + 100), Some("bound"), Some(session), Some(t))
  }

  // ------------------------------------------------------ the moves of one choice

  predicate Quiet(moves: seq<Move>) {
    forall t :: 0 <= t < |moves| ==> !GivesUp(moves[t])
  }

  lemma BeginEffect(w: World, m: Inbound, t: int)
    requires w.clock <= t
    ensures Allowed(w, BeginMove(m, t, t))
    ensures var x := Apply(w, BeginMove(m, t, t)); x.dir == Begin(w.dir, m, t, t).0 && x.clock == t && x.used == w.used
  {
    hide Begin, Requeued, NewlyQueued;
  }

  lemma ClaimEffect(w: World, k: Key, t: int)
    requires w.clock <= t && CanExpire(w.dir, t) && ExpireAll(w.dir, t) == w.dir && NextPending(w.dir, k, t)
    ensures Allowed(w, ClaimMove(Some(k), t))
    ensures var x := Apply(w, ClaimMove(Some(k), t)); x.dir == Polled(w.dir, k, t) && x.clock == t && x.used == w.used
  {
    hide CanExpire, ExpireAll, Requeued, NewlyQueued;
  }

  lemma FinishEffect(w: World, p: Pending, proof: Proof, identity: string, g: string, t: int)
    requires w.clock <= t && g !in w.used && p.hubId == p.id.hub
    ensures Allowed(w, FinishMove(p, 200, proof, identity, g, t))
    ensures var x := Apply(w, FinishMove(p, 200, proof, identity, g, t));
            && x.dir == Finish(w.dir, p, 200, proof, identity, g, t).0 && x.clock == t && x.used == w.used + {g}
  {
    hide Finish, Requeued, NewlyQueued;
  }

  lemma Begins(worlds: seq<World>, moves: seq<Move>, m: Inbound, ids: set<ProofId>, load: nat)
    returns (more: seq<World>, steps: seq<Move>)
    requires IsCalledRun(worlds, moves) && Quiet(moves)
    requires ProofShape(m) && m.timestamp.value >= 0 && Last(worlds).clock <= m.timestamp.value
    requires Idle(Last(worlds).dir, KeyOf(m), m.timestamp.value, ids, load)
    requires ProofOf(m.text).value !in ids && |ids| < MAX_SEEN && load < MAX_UPDATES
    ensures IsCalledRun(more, steps) && Quiet(steps) && worlds <= more && |more| == |worlds| + 1
    ensures var k := KeyOf(m); var t := m.timestamp.value; var d := Last(more).dir;
            && d.Keys == {k} && Calm(d[k], k, t, ids + {ProofOf(m.text).value}, load + 1)
            && d[k].pending == Some(NewPending(m, t)) && d[k].active == RouteAt(Last(worlds).dir, k).active
            && Last(more).clock == t && Last(more).used == Last(worlds).used
  {
    hide Apply, Allowed, Idle, Calm, ProofOf, ValidHubId, AllHex, NewPending, Begin;
    var t := m.timestamp.value;
    var move := BeginMove(m, t, t);
    BeginEffect(Last(worlds), m, t);
    ProofArrives(Last(worlds).dir, m, KeyOf(m), ids, load);
    more, steps := worlds + [Apply(Last(worlds), move)], moves + [move];
    Extend(worlds, moves, move);
  }

  // The binding is handed out, and the device confirms.
  lemma OwnerConfirms(worlds: seq<World>, moves: seq<Move>, m: Inbound, session: string, identity: string, g: string,
                 ids: set<ProofId>, load: nat)
    returns (more: seq<World>, steps: seq<Move>)
    requires IsCalledRun(worlds, moves) && Quiet(moves) && ProofShape(m) && m.timestamp.value >= 0
    requires var k := KeyOf(m); var t := m.timestamp.value; var d := Last(worlds).dir;
             && d.Keys == {k} && Calm(d[k], k, t, ids, load) && d[k].pending == Some(NewPending(m, t))
             && Last(worlds).clock == t
    requires g !in Last(worlds).used && load + 2 <= MAX_UPDATES && Device(session, identity)
    ensures IsCalledRun(more, steps) && Quiet(steps) && worlds <= more && |more| == |worlds| + 2
    ensures var k := KeyOf(m); var t := m.timestamp.value; var d := Last(more).dir;
            && d.Keys == {k} && Calm(d[k], k, t, ids, load + 2) && d[k].pending.None?
            && d[k].active == Some(Selection(ProofOf(m.text).value.hub, identity, session, g, t))
            && Last(more).clock == t && Last(more).used == Last(worlds).used + {g}
  {
    hide Apply, Allowed, ValidHubId, ValidProofId, AllHex, ProofOf, Finish, ExpireAll, CanExpire;
    var k, t := KeyOf(m), m.timestamp.value;
    var p := NewPending(m, t).(nextPoll := t + 10);
    var claim := ClaimMove(Some(k), t);
    BindingIsHandedOut(Last(worlds).dir, k, t);
    ClaimEffect(Last(worlds), k, t);
    Extend(worlds, moves, claim);
    var w := Apply(Last(worlds), claim);
    more, steps := worlds + [w], moves + [claim];
    var answer := FinishMove(p, 200, Confirmation(session, t), identity, g, t);
    FinishEffect(w, p, Confirmation(session, t), identity, g, t);
    DeviceAnswers(w.dir, k, p, session, identity, g, t, ids, load);
    assert HandedOut(more + [Apply(w, answer)], steps + [answer], |moves|, p);
    Extend(more, steps, answer);
    more, steps := more + [Apply(w, answer)], steps + [answer];
  }

  // ------------------------------------------------------------ the whole run

  // A run of calls whose last one, the withdrawal of an identity, leaves a
  // selection in use with nothing pending, and "paused" as the last word on it.
  ghost predicate LeftPaused(worlds: seq<World>, moves: seq<Move>, k: Key, s: Selection) {
    && IsCalledRun(worlds, moves) && |moves| > 0
    && moves[|moves| - 1].InvalidateMove? && Quiet(moves[..|moves| - 1])
    && Announced(worlds[|moves| - 1], k, s)
    && var w := Last(worlds);
       && Uses(w.dir, k, s) && Present(w.dir, k, s) == Active
       && k in w.queued && s.generation in w.queued[k] && w.queued[k][s.generation].selection == s
       && w.queued[k][s.generation].status == Paused
  }

  lemma Withdrawal(w: World, k: Key, s: Selection, lost: Selection)
    requires Announced(w, k, s) && Uses(w.dir, k, s) && !SameDevice(s, lost) && DropsPending(w.dir[k], lost)
    ensures Allowed(w, InvalidateMove(lost))
    ensures var x := Apply(w, InvalidateMove(lost));
            && Uses(x.dir, k, s) && Present(x.dir, k, s) == Active
            && k in x.queued && s.generation in x.queued[k] && x.queued[k][s.generation].selection == s
            && x.queued[k][s.generation].status == Paused
  {
    hide GivenUp;
  }

  // One choice from start to end.
  lemma Chooses(worlds: seq<World>, moves: seq<Move>, m: Inbound, session: string, identity: string, g: string,
                ids: set<ProofId>, load: nat)
    returns (more: seq<World>, steps: seq<Move>)
    requires IsCalledRun(worlds, moves) && Quiet(moves)
    requires ProofShape(m) && m.timestamp.value >= 0 && Last(worlds).clock <= m.timestamp.value
    requires Idle(Last(worlds).dir, KeyOf(m), m.timestamp.value, ids, load)
    requires ProofOf(m.text).value !in ids && |ids| < MAX_SEEN && load + 3 <= MAX_UPDATES
    requires g !in Last(worlds).used && Device(session, identity)
    ensures IsCalledRun(more, steps) && Quiet(steps) && worlds <= more && |more| == |worlds| + 3
    ensures var k := KeyOf(m); var t := m.timestamp.value; var w := Last(more);
            && Idle(w.dir, k, t, ids + {ProofOf(m.text).value}, load + 3)
            && Uses(w.dir, k, Selection(ProofOf(m.text).value.hub, identity, session, g, t))
            && w.dir[k].pending.None? && w.clock == t && w.used == Last(worlds).used + {g}
  {
    hide Apply, Allowed, ValidHubId, ValidProofId, AllHex, ProofOf, Calm, NewPending;
    more, steps := Begins(worlds, moves, m, ids, load);
    more, steps := OwnerConfirms(more, steps, m, session, identity, g, ids + {ProofOf(m.text).value}, load + 1);
  }

  lemma BindingNames(m: Inbound, t: int)
    requires ProofShape(m)
    ensures NewPending(m, t).hubId == ProofOf(m.text).value.hub && NewPending(m, t).hubIdentity.None?
  {
  }

  lemma AskedIsCalled(worlds: seq<World>, moves: seq<Move>, w: World, k: Key, lost: Selection, i: nat, at: int)
    requires |worlds| == |moves| + 1 && i < |worlds| && AskedUnder(worlds, i, k, lost, at)
    ensures Called(worlds + [w], moves + [InvalidateMove(lost)], |moves|)
  {
    hide Check;
    assert AskedUnder(worlds + [w], i, k, lost, at);
  }

  lemma EndsPaused(worlds: seq<World>, moves: seq<Move>, w: World, move: Move, k: Key, s: Selection)
    requires |worlds| == |moves| + 1 && IsCalledRun(worlds + [w], moves + [move]) && move.InvalidateMove?
    requires Quiet(moves) && Announced(Last(worlds), k, s) && Uses(w.dir, k, s) && Present(w.dir, k, s) == Active
    requires k in w.queued && s.generation in w.queued[k] && w.queued[k][s.generation].selection == s
    requires w.queued[k][s.generation].status == Paused
    ensures LeftPaused(worlds + [w], moves + [move], k, s)
  {
    hide IsCalledRun, Announced, Quiet, Uses, Present;
    assert (moves + [move])[..|moves|] == moves;
  }

  lemma Converged(worlds: seq<World>, moves: seq<Move>, k: Key, s: Selection, a: nat)
    requires IsCalledRun(worlds, moves) && Quiet(moves) && a < |worlds| && Uses(worlds[a].dir, k, s)
    ensures Announced(Last(worlds), k, s)
  {
    hide Apply, Allowed, Announced, Called, Uses;
    HubsConverge(worlds, moves, k, s, a, |moves|);
  }

  // The last move of such a run.
  lemma Withdraws(worlds: seq<World>, moves: seq<Move>, k: Key, s: Selection, lost: Selection, a: nat, i: nat, at: int)
    requires IsCalledRun(worlds, moves) && Quiet(moves) && a < |worlds| && Uses(worlds[a].dir, k, s)
    requires i < |worlds| && AskedUnder(worlds, i, k, lost, at)
    requires Uses(Last(worlds).dir, k, s) && !SameDevice(s, lost) && DropsPending(Last(worlds).dir[k], lost)
    ensures exists more, steps :: LeftPaused(more, steps, k, s)
  {
    hide Apply, Allowed, Announced, Called, Uses, SameDevice, DropsPending, Check, AskedUnder, Present, LeftPaused;
    var move := InvalidateMove(lost);
    Converged(worlds, moves, k, s, a);
    Withdrawal(Last(worlds), k, s, lost);
    var w := Apply(Last(worlds), move);
    AskedIsCalled(worlds, moves, w, k, lost, i, at);
    Extend(worlds, moves, move);
    EndsPaused(worlds, moves, w, move, k, s);
  }

  // The phone selects hub n, then hub m, then writes to n again. A late answer to
  // a call made under the first selection withdraws n's identity.
  lemma PauseIsLeftBehind(n: Inbound, m: Inbound, again: Inbound, early: string, lost: string, session: string,
                          identity: string)
    requires ThereAndBack(n, m, again) && Device(early, lost) && Device(session, identity)
    requires identity != lost || ProofOf(m.text).value.hub != ProofOf(n.text).value.hub
    ensures exists worlds, moves ::
              LeftPaused(worlds, moves, KeyOf(m),
                         Selection(ProofOf(m.text).value.hub, identity, session, "g1", m.timestamp.value))
  {
    hide Apply, Allowed, ValidHubId, ValidProofId, AllHex, ProofOf, Calm, NewPending, Announced, Called;
    var k, t := KeyOf(m), m.timestamp.value;
    var first := Selection(ProofOf(n.text).value.hub, lost, early, "g0", t);
    var second := Selection(ProofOf(m.text).value.hub, identity, session, "g1", t);
    var worlds, moves := Chooses([DAWN], [], n, early, lost, "g0", {}, 0);
    assert AskedUnder(worlds, 3, k, first, t);
    var ids := {ProofOf(n.text).value};
    var more, steps := Chooses(worlds, moves, m, session, identity, "g1", {} + ids, 3);
    assert Uses(more[6].dir, k, second);
    more, steps := Begins(more, steps, again, {} + ids + {ProofOf(m.text).value}, 6);
    BindingNames(again, t);
    assert AskedUnder(more, 3, k, first, t);
    Withdraws(more, steps, k, second, first, 6, 3, t);
  }
}
