// What each call decides, stated on the message, the answer and the stored route
// alone, and on every reachable directory: which proofs are heard, which answers
// end, prolong or fulfil a pending binding, which receipts settle an update, what
// a lost identity takes with it, and which messages are routed.
module NaviDecisions {
  import opened Prelude
  import opened NaviRoutes
  import opened NaviWorld
  import opened NaviSteps
  import opened NaviSelections
  import opened NaviExpiry

  // ------------------------------------------------------------ a phone's proof

  lemma {:induction false} SplitAtTheDot(hub: string, token: string)
    requires forall i :: 0 <= i < |hub| ==> hub[i] != '.'
    ensures SplitOnce(hub + "." + token, '.') == Some((hub, token))
  {
    var s := hub + "." + token;
    if hub == "" {
      assert s[1..] == token;
    } else {
      SplitAtTheDot(hub[1..], token);
      assert s[1..] == hub[1..] + "." + token;
      assert hub == [hub[0]] + hub[1..];
    }
  }

  lemma {:induction false} SplitJoins(s: string)
    ensures SplitOnce(s, '.').Some? ==> s == SplitOnce(s, '.').value.0 + "." + SplitOnce(s, '.').value.1
  {
    if s != "" {
      SplitJoins(s[1..]);
      assert s == [s[0]] + s[1..];
    }
  }

  // The text of a proof for this hub with this token.
  predicate ProofText(text: string, hub: string, token: string) {
    && Trim(text) == "NAVI " + hub + "." + token
    && NamesAHub(hub)
    && |token| == 64 && forall i :: 0 <= i < 64 ==> token[i] in "0123456789abcdefABCDEF"
  }

  // Written by a phone in its own chat on a named route.
  predicate DirectMessage(m: Inbound) {
    && m.platform == "whatsapp" && m.chatType == "p2p" && m.chatId == m.userId
    && 7 <= |m.userId| <= 15 && (forall i :: 0 <= i < |m.userId| ==> m.userId[i] in "0123456789")
    && m.routeKey != "" && Utf8Len(m.routeKey) <= 256 && m.messageId != "" && m.timestamp.Some?
  }

  lemma ProofReads(text: string, hub: string, token: string)
    requires ProofText(text, hub, token)
    ensures ProofOf(text) == Some(ProofId(hub, token))
  {
    hide Trim;
    var t := Trim(text);
    HubNames(hub);
    SplitAtTheDot(hub, token);
    assert t[5..] == hub + "." + token;
  }

  lemma ProofWrites(text: string)
    requires ProofOf(text).Some?
    ensures Trim(text) == "NAVI " + ProofOf(text).value.hub + "." + ProofOf(text).value.token
  {
    hide Trim, SplitOnce;
    var t := Trim(text);
    SplitJoins(t[5..]);
    assert t == "NAVI " + t[5..];
  }

  // The messages `begin` takes for proofs, its clock apart.
  lemma ProofsAreRead(m: Inbound)
    ensures ProofShape(m) <==> DirectMessage(m) && exists hub, token :: ProofText(m.text, hub, token)
    ensures forall hub, token :: ProofText(m.text, hub, token) ==> ProofOf(m.text) == Some(ProofId(hub, token))
  {
    hide Trim, ProofOf, Utf8Len, ValidHubId, AllHex, NamesAHub;
    assert forall c :: IsDigit(c) <==> c in "0123456789";
    forall hub, token | ProofText(m.text, hub, token)
      ensures ProofOf(m.text) == Some(ProofId(hub, token)) && ValidHubId(hub) && AllHex(token)
    {
      ProofReads(m.text, hub, token);
      HubNames(hub);
      HexDigits(token);
    }
    if ProofShape(m) {
      var id := ProofOf(m.text).value;
      ProofWrites(m.text);
      HubNames(id.hub);
      HexDigits(id.token);
      assert ProofText(m.text, id.hub, id.token);
    }
  }

  // The clock is right for the message, and the directory has room for its route.
  predicate InTime(d: Directory, m: Inbound, checked: int)
    requires m.timestamp.Some?
  {
    && checked - 300 < m.timestamp.value <= checked + 60
    && (Key(m.userId, m.routeKey) in d || |d| < 4096)
  }

  // Presented before, and not forgotten yet.
  predicate Remembered(d: Directory, k: Key, id: ProofId, now: int) {
    k in d && id in d[k].seen && d[k].seen[id] > now
  }

  // The route can take another proof, written at `t`.
  predicate TakesProof(d: Directory, k: Key, t: int, now: int) {
    if k !in d then t >= 0
    else
      && t >= d[k].newestProofAt && |(set p | p in d[k].seen && d[k].seen[p] > now)| < 64
      && (d[k].active.Some? ==>
            && (d[k].active.value.generation in d[k].updates || |d[k].updates| < 64)
            && d[k].revision < 9_007_199_254_740_991)
  }

  lemma PurgedSize(seen: map<ProofId, int>, now: int)
    ensures |Purge(seen, now)| == |(set p | p in seen && seen[p] > now)|
    ensures Purge(seen, now).Keys == (set p | p in seen && seen[p] > now)
  {
    assert Purge(seen, now).Keys == (set p | p in seen && seen[p] > now);
    assert |Purge(seen, now)| == |Purge(seen, now).Keys|;
  }

  // What the proof stores on its route.
  predicate Stores(route: Route, m: Inbound, hub: string, token: string, now: int, active: Option<Selection>)
    requires m.timestamp.Some?
  {
    var id, t := ProofId(hub, token), m.timestamp.value;
    && route.pending == Some(Pending(id, hub, token, m.userId, m.routeKey, t, if t < now then t + 300 else now + 300, 0,
                                     None, None))
    && route.active == active && route.newestProofAt == t
    && id in route.seen && route.seen[id] == t + 360
  }

  // A proof is heard if and only if it comes in time, is not remembered, and its
  // route can take it; otherwise it leaves every binding and selection alone.
  lemma ProofsAreHeard(d: Directory, m: Inbound, hub: string, token: string, checked: int, now: int)
    requires DirectMessage(m) && ProofText(m.text, hub, token)
    ensures var k, t := Key(m.userId, m.routeKey), m.timestamp.value;
            var (after, answer) := Begin(d, m, checked, now);
            var remembered := Remembered(d, k, ProofId(hub, token), now);
            && (answer.Ok? <==> InTime(d, m, checked) && (remembered || TakesProof(d, k, t, now)))
            && (answer.Ok? && !remembered ==> k in after && Stores(after[k], m, hub, token, now, RouteAt(d, k).active))
            && (answer.Err? || remembered ==>
                  forall j :: RouteAt(after, j).pending == RouteAt(d, j).pending)
            && forall j :: j != k ==> RouteAt(after, j) == RouteAt(d, j)
    ensures forall j :: RouteAt(Begin(d, m, checked, now).0, j).active == RouteAt(d, j).active
  {
    hide Trim, ProofOf, ProofText, ValidHubId, AllHex, Utf8Len, Purge;
    ProofsAreRead(m);
    assert ProofText(m.text, hub, token);
    var k := Key(m.userId, m.routeKey);
    PurgedSize(RouteAt(d, k).seen, now);
    PurgedIs(RouteAt(d, k).seen, now);
  }

  lemma PurgedIs(seen: map<ProofId, int>, now: int)
    ensures forall p :: p in Purge(seen, now) <==> p in seen && seen[p] > now
    ensures seen == map[] ==> Purge(seen, now) == map[]
  {
  }

  lemma OthersAreDenied(d: Directory, m: Inbound, checked: int, now: int)
    requires !(DirectMessage(m) && exists hub, token :: ProofText(m.text, hub, token))
    ensures Begin(d, m, checked, now) == (d, Err("denied"))
  {
    hide ProofShape, DirectMessage, ProofText;
    ProofsAreRead(m);
  }

  // ---------------------------------------------------------- a device's answer

  // The answer comes from the device the binding waits for, whoever that is so
  // far, and is still good.
  predicate SoundAnswer(current: Pending, status: nat, proof: Proof, identity: string, now: int) {
    && status == 200
    && |identity| == 64 && (forall i :: 0 <= i < 64 ==> identity[i] in "0123456789abcdefABCDEF")
    && (current.hubIdentity.None? || current.hubIdentity == Some(identity))
    && proof.sessionId.Some? && (|proof.sessionId.value| == 32 || |proof.sessionId.value| == 64)
    && (forall i :: 0 <= i < |proof.sessionId.value| ==> proof.sessionId.value[i] in "0123456789abcdefABCDEF")
    && (current.sessionId.None? || current.sessionId == proof.sessionId)
    && proof.expiresAt.Some? && proof.expiresAt.value > now
  }

  // The owner has confirmed, after the phone wrote and not in the future.
  predicate OwnerConfirmed(current: Pending, proof: Proof, now: int) {
    && proof.status == Some("bound") && proof.bindingId == proof.sessionId && proof.confirmedAt.Some?
    && current.occurred <= proof.confirmedAt.value <= now + 60
  }

  predicate RefusedBy(status: nat) {
    status == 400 || status == 401 || status == 403 || status == 404 || status == 410 || status == 422
  }

  // Room for what a switch announces: the old selection's end and the new one.
  predicate RoomToSwitch(route: Route) {
    if route.active.Some? then
      |route.updates.Keys + {route.active.value.generation}| < 64 && route.revision + 2 <= 9_007_199_254_740_991
    else |route.updates| < 64 && route.revision < 9_007_199_254_740_991
  }

  lemma SwitchHasRoom(route: Route, s: Selection, now: int)
    requires route.recipient != "" && route.routeKey != "" && s.generation !in route.updates
    requires route.active.Some? ==> s.generation != route.active.value.generation
    ensures Switch(route, s, now).Ok? <==> RoomToSwitch(route)
  {
    assert |route.updates| == |route.updates.Keys|;
    if route.active.Some? {
      var g := route.active.value.generation;
      assert g in route.updates ==> route.updates.Keys + {g} == route.updates.Keys;
      assert g !in route.updates ==> |route.updates.Keys + {g}| == |route.updates.Keys| + 1;
      var retired := QueueUpdate(route, Retired, now);
      if retired.Ok? {
        assert retired.value.updates.Keys == route.updates.Keys + {g};
        assert |retired.value.updates| == |retired.value.updates.Keys|;
      }
    }
  }

  // An answer to the binding on record refuses, prolongs or fulfils it, or it is
  // put off and changes nothing.
  lemma AnswerDecides(route: Route, p: Pending, status: nat, proof: Proof, identity: string, g: string, now: int)
    requires route.pending.Some? && route.pending.value.id == p.id && HasRoom(route)
    requires route.recipient != "" && route.routeKey != "" && route.revision < 9_007_199_254_740_991
    requires g !in route.updates && (route.active.Some? ==> g != route.active.value.generation)
    ensures var current := route.pending.value;
            var after := FinishRoute(route, p, status, proof, identity, g, now);
            var sound := SoundAnswer(current, status, proof, identity, now);
            if current.expiresAt <= now || RefusedBy(status) then
              after.Ok? && after.value.pending.None? && after.value.active == route.active
            else if sound && proof.status == Some("awaiting_owner_confirmation") then
              after == Ok(route.(pending := Some(current.(
                hubIdentity := Some(identity), sessionId := proof.sessionId, nextPoll := now + 1,
                expiresAt := if proof.expiresAt.value < current.expiresAt then proof.expiresAt.value
                             else current.expiresAt))))
            else if sound && OwnerConfirmed(current, proof, now) && RoomToSwitch(route) then
              && after.Ok? && after.value.pending.None?
              && after.value.active == Some(Selection(p.hubId, identity, proof.sessionId.value, g, now))
            else after.Err?
  {
    hide Switch, ValidProofId, AllHex;
    var current := route.pending.value;
    HexDigits(identity);
    if proof.sessionId.Some? {
      ProofIdDigits(proof.sessionId.value);
    }
    if current.expiresAt <= now || RefusedBy(status) {
      QueueOpens(route.(pending := None), Active, now);
    } else if ProofAccepted(current, status, proof, identity, now) {
      var refreshed := route.(pending := Some(Refreshed(current, proof, identity)));
      var s := Selection(p.hubId, identity, proof.sessionId.value, g, now);
      SwitchHasRoom(refreshed, s, now);
      if Switch(refreshed, s, now).Ok? {
        SwitchSteps(refreshed, s, now);
      }
    }
  }

  lemma ProofIdDigits(s: string)
    ensures ValidProofId(s) <==>
            (|s| == 32 || |s| == 64) && forall i :: 0 <= i < |s| ==> s[i] in "0123456789abcdefABCDEF"
  {
    HexDigits(s);
  }

  lemma QueueOpens(route: Route, status: RouteStatus, now: int)
    requires route.revision < 9_007_199_254_740_991
    requires route.active.Some? ==> route.active.value.generation in route.updates || |route.updates| < 64
    ensures QueueUpdate(route, status, now).Ok?
    ensures QueueUpdate(route, status, now).value.pending == route.pending
    ensures QueueUpdate(route, status, now).value.active == route.active
  {
  }

  // In every reachable world below the revision limit.
  lemma AnswersDecide(worlds: seq<World>, moves: seq<Move>, i: nat, p: Pending, status: nat, proof: Proof,
                      identity: string, g: string, now: int)
    requires IsRun(worlds, moves) && i < |worlds| && 2 * i < 9_007_199_254_740_991 && g !in worlds[i].used
    requires var k := Key(p.recipient, p.routeKey);
             k in worlds[i].dir && worlds[i].dir[k].pending.Some? && worlds[i].dir[k].pending.value.id == p.id
    ensures var k := Key(p.recipient, p.routeKey);
            var route := worlds[i].dir[k];
            var current := route.pending.value;
            var (after, answer) := Finish(worlds[i].dir, p, status, proof, identity, g, now);
            var sound := SoundAnswer(current, status, proof, identity, now);
            && after.Keys == worlds[i].dir.Keys && (forall j :: j in after && j != k ==> after[j] == worlds[i].dir[j])
            && if current.expiresAt <= now || RefusedBy(status) then
                 answer.Ok? && after[k].pending.None? && after[k].active == route.active
               else if sound && proof.status == Some("awaiting_owner_confirmation") then
                 && answer.Ok? && after[k].active == route.active && after[k].pending.Some?
                 && after[k].pending.value.nextPoll == now + 1 && after[k].pending.value.hubIdentity == Some(identity)
                 && after[k].pending.value.sessionId == proof.sessionId
               else if sound && OwnerConfirmed(current, proof, now) && RoomToSwitch(route) then
                 && answer.Ok? && after[k].pending.None?
                 && after[k].active == Some(Selection(p.hubId, identity, proof.sessionId.value, g, now))
               else answer.Err? && after == worlds[i].dir
  {
    hide IsRun, Inv, FinishRoute, SoundAnswer, OwnerConfirmed, RoomToSwitch, HasRoom;
    var k := Key(p.recipient, p.routeKey);
    RunKeeps(worlds, moves, i);
    RunLeavesRoom(worlds, moves, i, k);
    KnownParts(worlds[i], k);
    FreshGeneration(k, worlds[i].dir[k], worlds[i].queued[k], worlds[i].used, g);
    AnswerDecides(worlds[i].dir[k], p, status, proof, identity, g, now);
  }

  lemma FreshGeneration(k: Key, route: Route, q: map<string, RouteUpdate>, used: set<string>, g: string)
    requires NumbersOk(k, route, q, used) && ActiveOk(route, q) && g !in used
    ensures g !in route.updates && (route.active.Some? ==> g != route.active.value.generation)
  {
  }

  // --------------------------------------------------------- a hub's receipt

  // The hub says it has applied this very update.
  predicate Acknowledges(receipt: Receipt, u: RouteUpdate) {
    && receipt.applied && receipt.revision == Some(u.revision) && receipt.status == Some(u.status)
    && receipt.generation == Some(u.selection.generation) && receipt.bindingId == Some(u.selection.bindingId)
  }

  // The update on record is settled by its acknowledgement, or by a hub that will
  // never take it; any other answer leaves it to be sent again.
  lemma ReceiptsDecide(d: Directory, u: RouteUpdate, status: nat, receipt: Receipt)
    ensures var k, g := Key(u.recipient, u.routeKey), u.selection.generation;
            var (after, answer) := FinishUpdate(d, u, status, receipt);
            var onRecord := k in d && g in d[k].updates && d[k].updates[g].revision == u.revision;
            if !onRecord then after == d && answer.Ok?
            else if (status == 200 && Acknowledges(receipt, u)) || status == 403 || status == 410 then
              answer.Ok? && g !in after[k].updates && d == after[k := after[k].(updates := d[k].updates)]
              && after[k].updates[g := d[k].updates[g]] == d[k].updates
            else after == d && answer.Err?
  {
    var k, g := Key(u.recipient, u.routeKey), u.selection.generation;
    if Settles(d, u) {
      assert (d[k].updates - {g})[g := d[k].updates[g]] == d[k].updates;
    }
  }

  // ------------------------------------------------------------- a lost device

  // Of the lost device no route keeps a selection, a queued update or a binding
  // that could still be its; everything else stays.
  lemma WithdrawalsDecide(d: Directory, s: Selection, k: Key)
    requires k in d
    ensures k in Invalidate(d, s)
    ensures var a, b := d[k], Invalidate(d, s)[k];
            && b.active == (if a.active.Some? && a.active.value.hubId == s.hubId
                               && a.active.value.hubIdentity == s.hubIdentity then None else a.active)
            && b.pending == (if a.pending.Some? && a.pending.value.hubId == s.hubId
                                && (a.pending.value.hubIdentity.None?
                                    || a.pending.value.hubIdentity == Some(s.hubIdentity))
                             then None else a.pending)
            && (forall g :: g in b.updates <==>
                  g in a.updates && !(a.updates[g].selection.hubId == s.hubId
                                      && a.updates[g].selection.hubIdentity == s.hubIdentity))
            && (forall g :: g in b.updates ==> b.updates[g] == a.updates[g])
            && b == a.(active := b.active, pending := b.pending, updates := b.updates)
  {
  }

  // ---------------------------------------------------------- routing a message

  // A message goes to the device in use, if its writer is known to have had it in
  // mind: a direct message written after the selection, with no switch pending.
  lemma MessagesAreRouted(d: Directory, m: Inbound, s: Selection, now: int)
    ensures var k := Key(m.userId, m.routeKey);
            && (Select(d, m, now) == Ok(s) <==>
                && k in d && d[k].active == Some(s) && (d[k].pending.None? || d[k].pending.value.expiresAt <= now)
                && m.platform == "whatsapp" && m.chatType == "p2p" && m.chatId == m.userId
                && m.timestamp.Some? && s.selectedAt < m.timestamp.value <= now + 60)
            && (Select(d, m, now) == Err("unavailable") <==>
                k in d && d[k].pending.Some? && d[k].pending.value.expiresAt > now)
  {
    assert "unavailable"[0] != "denied"[0];
  }

  // Over every run: a message written to the selection in use reaches it, and the
  // answer produced under the selection passes as long as it stays in use, but for
  // the time a switch is pending.
  lemma ConversationsGoOn(worlds: seq<World>, moves: seq<Move>, m: Inbound, s: Selection, i: nat, now: int, j: nat,
                          later: int)
    requires IsRun(worlds, moves) && i <= j < |worlds|
    requires var d, k := worlds[i].dir, Key(m.userId, m.routeKey);
             k in d && d[k].active == Some(s) && (d[k].pending.None? || d[k].pending.value.expiresAt <= now)
    requires m.platform == "whatsapp" && m.chatType == "p2p" && m.chatId == m.userId
    requires m.timestamp.Some? && s.selectedAt < m.timestamp.value <= now + 60
    ensures Select(worlds[i].dir, m, now) == Ok(s)
    ensures var d, k := worlds[j].dir, Key(m.userId, m.routeKey);
            && k in d
            && (Check(d, k, s, later) == Ok(s) <==>
                d[k].active == Some(s) && (d[k].pending.None? || d[k].pending.value.expiresAt <= later))
            && (d[k].active != Some(s) ==>
                  forall t, l, at :: j <= t < |worlds| ==> Check(worlds[t].dir, l, s, at).Err?)
  {
    hide Apply, Allowed, Select;
    var k := Key(m.userId, m.routeKey);
    MessagesAreRouted(worlds[i].dir, m, s, now);
    RoutesRemain(worlds, moves, k, i, j);
    if worlds[j].dir[k].active != Some(s) {
      forall t, l, at | j <= t < |worlds|
        ensures Check(worlds[t].dir, l, s, at).Err?
      {
        SelectionsAreIntervals(worlds, moves, k, s, i, j, t);
      }
    }
  }

  lemma {:induction false} RoutesRemain(worlds: seq<World>, moves: seq<Move>, k: Key, i: nat, j: nat)
    requires IsRun(worlds, moves) && i <= j < |worlds| && k in worlds[i].dir
    ensures k in worlds[j].dir
    decreases j
  {
    hide Apply, Allowed;
    if i < j {
      RoutesRemain(worlds, moves, k, i, j - 1);
      MoveSteps(worlds[j - 1], moves[j - 1], k);
    }
  }
}
