// A routing hint is not ownership: over whole runs, a selection stems from the
// newest proof of the phone on that route, for the device the proof names, and
// from that device's answer that its owner confirmed.
module NaviConfirmation {
  import opened Prelude
  import opened NaviRoutes
  import opened NaviWorld
  import opened NaviSelections

  // The move turns the pending binding of the route into the selection.
  predicate Switches(w: World, move: Move, k: Key, s: Selection) {
    && move.FinishMove?
    && k in w.dir && w.dir[k].pending.Some?
    && var current := w.dir[k].pending.value;
       && current.id == move.p.id && current.expiresAt > move.now
       && ProofAccepted(current, move.status, move.proof, move.identity, move.now)
       && Bound(current, move.proof, move.now)
       && s == Selection(move.p.hubId, move.identity, move.proof.sessionId.value, move.generation, move.now)
  }

  lemma FinishSwitches(w: World, move: Move, k: Key, s: Selection)
    requires move.FinishMove? && k in w.dir && !Uses(w.dir, k, s)
    requires Uses(Finish(w.dir, move.p, move.status, move.proof, move.identity, move.generation, move.now).0, k, s)
    ensures Switches(w, move, k, s)
  {
    hide QueueUpdate, Switch, Bound, Refusal, ValidProofId, AllHex;
    var route := w.dir[k];
    var current := route.pending.value;
    if current.expiresAt <= move.now || Refusal(move.status) {
      QueueOnlyQueues(route.(pending := None), Active, move.now);
    } else if Bound(current, move.proof, move.now) && move.proof.status != Some("awaiting_owner_confirmation") {
      SwitchSteps(route.(pending := Some(Refreshed(current, move.proof, move.identity))),
                  Selection(move.p.hubId, move.identity, move.proof.sessionId.value, move.generation, move.now),
                  move.now);
    }
  }

  // Only a switch makes a selection that was not in use.
  lemma NewSelectionSwitches(w: World, move: Move, k: Key, s: Selection)
    requires Allowed(w, move) && Uses(Apply(w, move).dir, k, s) && !Uses(w.dir, k, s)
    ensures Switches(w, move, k, s)
  {
    hide CanExpire, ExpireAll, Begin, Finish, Requeued, GivenUp, ActiveStep, Switches;
    if k !in w.dir {
      MoveOpens(w, move, k);
      assert false;
    }
    MoveSteps(w, move, k);
    ActiveStepTo(w.dir[k].active, Apply(w, move).dir[k].active, move, s);
    FinishSwitches(w, move, k, s);
  }

  lemma ActiveStepTo(a: Option<Selection>, b: Option<Selection>, move: Move, s: Selection)
    requires ActiveStep(a, b, move) && b == Some(s) && a != Some(s)
    ensures move.FinishMove?
  {
  }

  // The pending binding at world `i` is the one message `a` created, and no later
  // message has created another on this route.
  ghost predicate PendingFrom(worlds: seq<World>, moves: seq<Move>, k: Key, a: nat, i: nat)
    requires |worlds| == |moves| + 1 && i < |worlds|
  {
    && a < i && CreatesAt(worlds[a], moves[a], k) && ProofShape(moves[a].m)
    && (forall t :: a < t < i ==> !CreatesAt(worlds[t], moves[t], k))
    && k in worlds[i].dir && worlds[i].dir[k].pending.Some?
    && Tightened(NewPending(moves[a].m, moves[a].now), worlds[i].dir[k].pending.value)
  }

  lemma CreationIsPending(w: World, move: Move, k: Key)
    requires Allowed(w, move) && CreatesAt(w, move, k)
    ensures ProofShape(move.m) && k in Apply(w, move).dir
    ensures Apply(w, move).dir[k].pending == Some(NewPending(move.m, move.now))
  {
    hide ProofShape, Requeued;
    QueueOnlyQueues(WithProof(Opened(w.dir, move.m, move.now), move.m, move.now), Paused, move.now);
  }

  lemma {:induction false} PendingHasMessage(worlds: seq<World>, moves: seq<Move>, k: Key, i: nat) returns (a: nat)
    requires IsRun(worlds, moves) && i < |worlds| && k in worlds[i].dir && worlds[i].dir[k].pending.Some?
    ensures PendingFrom(worlds, moves, k, a, i)
  {
    hide Apply, Allowed, CreatesAt, ProofShape, NewPending;
    var w, move := worlds[i - 1], moves[i - 1];
    if CreatesAt(w, move, k) {
      CreationIsPending(w, move, k);
      a := i - 1;
    } else {
      if k !in w.dir {
        MoveOpens(w, move, k);
      }
      MoveSteps(w, move, k);
      a := PendingHasMessage(worlds, moves, k, i - 1);
    }
  }

  // Every selection in use was switched to at some step `b`, when the newest proof
  // on its route was message `a`: the message names the selected device, the
  // device's owner confirmed after the message was written, and the switch came
  // within 300 s of it.
  ghost predicate ConfirmedBy(worlds: seq<World>, moves: seq<Move>, k: Key, s: Selection, a: nat, b: nat)
    requires |worlds| == |moves| + 1 && b < |worlds|
  {
    && PendingFrom(worlds, moves, k, a, b)
    && b < |moves| && Switches(worlds[b], moves[b], k, s)
    && var m := moves[a].m;
       && s.hubId == ProofOf(m.text).value.hub
       && s.bindingId == moves[b].proof.sessionId.value && moves[b].proof.bindingId == Some(s.bindingId)
       && s.hubIdentity == moves[b].identity && |s.hubIdentity| == 64
       && m.timestamp.value <= moves[b].proof.confirmedAt.value <= s.selectedAt + 60
       && s.selectedAt == moves[b].now < m.timestamp.value + 300
  }

  lemma SwitchIsConfirmed(worlds: seq<World>, moves: seq<Move>, k: Key, s: Selection, a: nat, b: nat)
    requires IsRun(worlds, moves) && b < |moves|
    requires PendingFrom(worlds, moves, k, a, b) && Switches(worlds[b], moves[b], k, s)
    ensures ConfirmedBy(worlds, moves, k, s, a, b)
  {
    hide Apply, CreatesAt, ValidHubId, ValidProofId, AllHex, CanExpire, ExpireAll, ProofOf;
    assert Allowed(worlds[b], moves[b]);
  }

  lemma {:induction false} SelectionsAreConfirmed(worlds: seq<World>, moves: seq<Move>, k: Key, s: Selection, i: nat)
    requires IsRun(worlds, moves) && i < |worlds| && Uses(worlds[i].dir, k, s)
    ensures exists a: nat, b: nat :: b < i && ConfirmedBy(worlds, moves, k, s, a, b)
  {
    hide Apply, Allowed, ConfirmedBy, PendingFrom, Switches;
    if Uses(worlds[i - 1].dir, k, s) {
      SelectionsAreConfirmed(worlds, moves, k, s, i - 1);
    } else {
      NewSelectionSwitches(worlds[i - 1], moves[i - 1], k, s);
      SwitchHasPending(worlds[i - 1], moves[i - 1], k, s);
      var a := PendingHasMessage(worlds, moves, k, i - 1);
      SwitchIsConfirmed(worlds, moves, k, s, a, i - 1);
    }
  }

  lemma SwitchHasPending(w: World, move: Move, k: Key, s: Selection)
    requires Switches(w, move, k, s)
    ensures k in w.dir && w.dir[k].pending.Some?
  {
  }
}
