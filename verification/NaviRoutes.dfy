// The directory of phone routes and the devices they lead to. A phone proves a
// switch with a signed message; the chosen device confirms it; every change of
// a selection is queued as a numbered update for the device's hub.
//
// Each operation is a transaction on the stored directory: one that fails
// persists nothing. The functions give a transaction's effect as a value.
module NaviRoutes {
  import opened Prelude

  // ------------------------------------------------------------- data model

  datatype Selection = Selection(
    hubId: string, hubIdentity: string, bindingId: string, generation: string, selectedAt: int)

  // The directory key and the proof identifier are SHA-256 digests of these
  // fields; SHA-256 is taken to be injective.
  datatype Key = Key(recipient: string, routeKey: string)

  datatype ProofId = ProofId(hub: string, token: string)

  datatype Pending = Pending(
    id: ProofId,
    hubId: string,
    token: string,
    recipient: string,
    routeKey: string,
    occurred: int,
    expiresAt: int,
    nextPoll: int,
    sessionId: Option<string>,
    hubIdentity: Option<string>)

  datatype RouteStatus = Active | Paused | Retired

  datatype RouteUpdate = RouteUpdate(
    selection: Selection,
    recipient: string,
    routeKey: string,
    revision: nat,
    status: RouteStatus,
    issuedAt: int,
    nextPoll: int)

  datatype Route = Route(
    active: Option<Selection>,
    pending: Option<Pending>,
    seen: map<ProofId, int>,
    newestProofAt: int,
    recipient: string,
    routeKey: string,
    revision: nat,
    updates: map<string, RouteUpdate>,
    notificationNextPoll: int)

  const NEW_ROUTE := Route(None, None, map[], 0, "", "", 0, map[], 0)

  type Directory = map<Key, Route>

  const MAX_ROUTES := 4096
  const MAX_UPDATES := 64
  const MAX_SEEN := 64
  const MAX_REVISION := 9_007_199_254_740_991

  // ------------------------------------------------------------ the outbox

  function QueueUpdate(route: Route, status: RouteStatus, now: int): Result<Route> {
    if route.active.None? then Ok(route)
    else if route.recipient == "" || route.routeKey == "" then Ok(route)
    else
      var selection := route.active.value;
      if |route.updates| >= MAX_UPDATES && selection.generation !in route.updates then Err("unavailable")
      else if route.revision + 1 > MAX_REVISION then Err("unavailable")
      else
        var update := RouteUpdate(selection, route.recipient, route.routeKey, route.revision + 1, status, now, 0);
        Ok(route.(revision := route.revision + 1, updates := route.updates[selection.generation := update]))
  }

  // ----------------------------------------------------------------- begin

  datatype Inbound = Inbound(
    platform: string,
    chatType: string,
    chatId: string,
    userId: string,
    text: string,
    messageId: string,
    routeKey: string,
    timestamp: Option<int>)

  function KeyOf(m: Inbound): Key {
    Key(m.userId, m.routeKey)
  }

  function SplitOnce(s: string, c: char): Option<(string, string)> {
    if s == "" then None
    else if s[0] == c then Some(("", s[1..]))
    else
      var rest := SplitOnce(s[1..], c);
      if rest.None? then None else Some(([s[0]] + rest.value.0, rest.value.1))
  }

  // "NAVI <hub>.<token>"
  function ProofOf(text: string): Option<ProofId> {
    var t := Trim(text);
    if !("NAVI " <= t) then None
    else
      var parts := SplitOnce(t[5..], '.');
      if parts.None? then None else Some(ProofId(parts.value.0, parts.value.1))
  }

  // Everything `begin` asks of a message except its age.
  predicate ProofShape(m: Inbound) {
    && ProofOf(m.text).Some?
    && m.timestamp.Some?
    && ValidHubId(ProofOf(m.text).value.hub)
    && |ProofOf(m.text).value.token| == 64 && AllHex(ProofOf(m.text).value.token)
    && m.platform == "whatsapp" && m.chatType == "p2p" && m.chatId == m.userId
    && 7 <= |m.userId| <= 15 && (forall i :: 0 <= i < |m.userId| ==> IsDigit(m.userId[i]))
    && m.routeKey != "" && Utf8Len(m.routeKey) <= 256
    && m.messageId != ""
  }

  function Purge(seen: map<ProofId, int>, now: int): map<ProofId, int> {
    map id | id in seen && seen[id] > now :: seen[id]
  }

  function Opened(d: Directory, m: Inbound, now: int): Route {
    var route := if KeyOf(m) in d then d[KeyOf(m)] else NEW_ROUTE;
    route.(recipient := m.userId, routeKey := m.routeKey, seen := Purge(route.seen, now))
  }

  function NewPending(m: Inbound, now: int): Pending
    requires ProofShape(m)
  {
    var id := ProofOf(m.text).value;
    Pending(id, id.hub, id.token, m.userId, m.routeKey, m.timestamp.value,
            Min(m.timestamp.value + 300, now + 300), 0, None, None)
  }

  function WithProof(route: Route, m: Inbound, now: int): Route
    requires ProofShape(m)
  {
    route.(
    seen := route.seen[ProofOf(m.text).value := m.timestamp.value + 360],
    newestProofAt := m.timestamp.value,
    pending := Some(NewPending(m, now)))
  }

  // `checked` is the clock when the message's age is judged, before the lock is
  // taken; `now` is the clock inside the transaction.
  function Begin(d: Directory, m: Inbound, checked: int, now: int): (Directory, Result<Unit>) {
    if !ProofShape(m) || m.timestamp.value <= checked - 300 || m.timestamp.value > checked + 60 then
      (d, Err("denied"))
    else if |d| >= MAX_ROUTES && KeyOf(m) !in d then (d, Err("unavailable"))
    else
      var route := Opened(d, m, now);
      if ProofOf(m.text).value in route.seen then (d[KeyOf(m) := route], Ok(Unit))
      else if m.timestamp.value < route.newestProofAt || |route.seen| >= MAX_SEEN then (d, Err("denied"))
      else
        var queued := QueueUpdate(WithProof(route, m, now), Paused, now);
        if queued.Err? then (d, Err(queued.error)) else (d[KeyOf(m) := queued.value], Ok(Unit))
  }

  // The transaction stores a new pending binding for the message.
  predicate Creates(d: Directory, m: Inbound, checked: int, now: int) {
    Begin(d, m, checked, now).1.Ok? && ProofOf(m.text).value !in Opened(d, m, now).seen
  }

  // ------------------------------------------------- claim a pending binding

  function ExpireRoute(route: Route, now: int): Result<Route> {
    if route.pending.Some? && route.pending.value.expiresAt <= now
    then QueueUpdate(route.(pending := None), Active, now)
    else Ok(route)
  }

  predicate CanExpire(d: Directory, now: int) {
    forall k :: k in d ==> ExpireRoute(d[k], now).Ok?
  }

  function ExpireAll(d: Directory, now: int): Directory
    requires CanExpire(d, now)
  {
    map k | k in d :: ExpireRoute(d[k], now).value
  }

  predicate DuePending(route: Route, now: int) {
    route.pending.Some? && route.pending.value.nextPoll <= now
  }

  // A due pending binding with the earliest poll time.
  predicate NextPending(d: Directory, k: Key, now: int) {
    && k in d && DuePending(d[k], now)
    && forall j :: j in d && DuePending(d[j], now) ==> d[k].pending.value.nextPoll <= d[j].pending.value.nextPoll
  }

  function Polled(d: Directory, k: Key, now: int): Directory
    requires k in d && d[k].pending.Some?
  {
    d[k := d[k].(pending := Some(d[k].pending.value.(nextPoll := now + 10)))]
  }

  // ----------------------------------------------------- a device's answer

  datatype Proof = Proof(
    sessionId: Option<string>,
    expiresAt: Option<int>,
    status: Option<string>,
    bindingId: Option<string>,
    confirmedAt: Option<int>)

  predicate ValidProofId(s: string) {
    (|s| == 32 || |s| == 64) && AllHex(s)
  }

  predicate Refusal(status: nat) {
    status in {400, 401, 403, 404, 410, 422}
  }

  predicate Pinned(known: Option<string>, value: string) {
    known.None? || known.value == value
  }

  // The answer belongs to the current pending binding and passes every check.
  predicate ProofAccepted(current: Pending, status: nat, proof: Proof, identity: string, now: int) {
    && status == 200
    && |identity| == 64 && AllHex(identity)
    && Pinned(current.hubIdentity, identity)
    && proof.sessionId.Some? && ValidProofId(proof.sessionId.value)
    && proof.expiresAt.Some? && proof.expiresAt.value > now
    && Pinned(current.sessionId, proof.sessionId.value)
  }

  function Refreshed(current: Pending, proof: Proof, identity: string): Pending
    requires proof.sessionId.Some? && proof.expiresAt.Some?
  {
    current.(
    hubIdentity := Some(identity),
    sessionId := proof.sessionId,
    expiresAt := Min(current.expiresAt, proof.expiresAt.value))
  }

  predicate Bound(current: Pending, proof: Proof, now: int) {
    && proof.status == Some("bound")
    && proof.bindingId == proof.sessionId
    && proof.confirmedAt.Some?
    && current.occurred <= proof.confirmedAt.value <= now + 60
  }

  // The old selection is retired and the new one queued as active.
  function Switch(route: Route, selection: Selection, now: int): Result<Route> {
    var retired := QueueUpdate(route, Retired, now);
    if retired.Err? then retired
    else QueueUpdate(retired.value.(active := Some(selection), pending := None), Active, now)
  }

  function FinishRoute(route: Route, p: Pending, status: nat, proof: Proof, identity: string, generation: string,
                       now: int): Result<Route>
  {
    if route.pending.None? || route.pending.value.id != p.id then Ok(route)
    else
      var current := route.pending.value;
      if current.expiresAt <= now || Refusal(status) then QueueUpdate(route.(pending := None), Active, now)
      else if !ProofAccepted(current, status, proof, identity, now) then Err("unavailable")
      else
        var refreshed := Refreshed(current, proof, identity);
        if proof.status == Some("awaiting_owner_confirmation") then
          Ok(route.(pending := Some(refreshed.(nextPoll := now + 1))))
        else if Bound(current, proof, now) then
          Switch(route.(pending := Some(refreshed)),
                 Selection(p.hubId, identity, proof.sessionId.value, generation, now), now)
        else Err("unavailable")
  }

  function Finish(d: Directory, p: Pending, status: nat, proof: Proof, identity: string, generation: string, now: int)
    : (Directory, Result<Unit>)
  {
    var k := Key(p.recipient, p.routeKey);
    if k !in d then (d, Err("unavailable"))
    else
      var r := FinishRoute(d[k], p, status, proof, identity, generation, now);
      if r.Err? then (d, Err(r.error)) else (d[k := r.value], Ok(Unit))
  }

  // ---------------------------------------------------------- route updates

  predicate DueUpdate(d: Directory, k: Key, g: string, now: int) {
    k in d && g in d[k].updates && d[k].updates[g].nextPoll <= now
  }

  predicate NextUpdate(d: Directory, k: Key, g: string, now: int) {
    && DueUpdate(d, k, g, now)
    && forall j, h :: j in d && h in d[j].updates && d[j].updates[h].nextPoll <= now ==>
                        d[k].updates[g].nextPoll <= d[j].updates[h].nextPoll
  }

  function Sent(d: Directory, k: Key, g: string, now: int): Directory
    requires k in d && g in d[k].updates
  {
    d[k := d[k].(updates := d[k].updates[g := d[k].updates[g].(nextPoll := now + 10)])]
  }

  datatype Receipt = Receipt(
    bindingId: Option<string>,
    generation: Option<string>,
    revision: Option<nat>,
    status: Option<RouteStatus>,
    applied: bool)

  predicate Confirms(r: Receipt, u: RouteUpdate) {
    r == Receipt(Some(u.selection.bindingId), Some(u.selection.generation), Some(u.revision), Some(u.status), true)
  }

  // The hub's answer settles the update still on record.
  predicate Settles(d: Directory, u: RouteUpdate) {
    var k := Key(u.recipient, u.routeKey);
    k in d && u.selection.generation in d[k].updates
    && d[k].updates[u.selection.generation].revision == u.revision
  }

  function FinishUpdate(d: Directory, u: RouteUpdate, status: nat, receipt: Receipt): (Directory, Result<Unit>) {
    var k := Key(u.recipient, u.routeKey);
    if !Settles(d, u) then (d, Ok(Unit))
    else if status == 200 && !Confirms(receipt, u) then (d, Err("unavailable"))
    else if status != 200 && status != 403 && status != 410 then (d, Err("unavailable"))
    else (d[k := d[k].(updates := d[k].updates - {u.selection.generation})], Ok(Unit))
  }

  // ------------------------------------------------------------ using a route

  predicate Waiting(route: Route, now: int) {
    route.pending.Some? && route.pending.value.expiresAt > now
  }

  function Select(d: Directory, m: Inbound, now: int): Result<Selection> {
    if KeyOf(m) !in d then Err("denied")
    else
      var route := d[KeyOf(m)];
      if Waiting(route, now) then Err("unavailable")
      else if route.active.None? || m.timestamp.None? then Err("denied")
      else if m.platform != "whatsapp" || m.chatId != m.userId || m.chatType != "p2p"
              || m.timestamp.value <= route.active.value.selectedAt || m.timestamp.value > now + 60 then
        Err("denied")
      else Ok(route.active.value)
  }

  // An outbound message carries the selection it was produced under.
  function Check(d: Directory, k: Key, carried: Selection, now: int): Result<Selection> {
    if k !in d then Err("denied")
    else if Waiting(d[k], now) then Err("unavailable")
    else if d[k].active != Some(carried) then Err("denied")
    else Ok(carried)
  }

  // -------------------------------------------------- revocation and polling

  predicate SameDevice(a: Selection, b: Selection) {
    a.hubId == b.hubId && a.hubIdentity == b.hubIdentity
  }

  function InvalidateRoute(route: Route, s: Selection): Route {
    route.(
    active := if route.active.Some? && SameDevice(route.active.value, s) then None else route.active,
    pending := if route.pending.Some? && route.pending.value.hubId == s.hubId
                  && Pinned(route.pending.value.hubIdentity, s.hubIdentity) then None else route.pending,
    updates := map g | g in route.updates && !SameDevice(route.updates[g].selection, s) :: route.updates[g])
  }

  function Invalidate(d: Directory, s: Selection): Directory {
    map k | k in d :: InvalidateRoute(d[k], s)
  }

  // May this route be asked for notifications, its poll time apart?
  predicate Eligible(route: Route, now: int) {
    && route.active.Some?
    && route.recipient != "" && route.routeKey != ""
    && (route.pending.None? || route.pending.value.expiresAt <= now)
  }

  predicate DueRoute(route: Route, now: int) {
    Eligible(route, now) && route.notificationNextPoll <= now
  }

  predicate NextRoute(d: Directory, k: Key, now: int) {
    && k in d && DueRoute(d[k], now)
    && forall j :: j in d && DueRoute(d[j], now) ==> d[k].notificationNextPoll <= d[j].notificationNextPoll
  }

  function Notified(d: Directory, k: Key, now: int): Directory
    requires k in d
  {
    d[k := d[k].(notificationNextPoll := now + 15)]
  }
}
