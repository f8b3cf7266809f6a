// Whole runs of the device session store, with the history of the codes it
// issued and the tokens it granted. Codes and tokens are random and never drawn
// twice; the digest function is taken to be injective.
module DeviceSessionRuns {
  import opened Prelude
  import opened DeviceSessions

  datatype Offer = Offer(camera: string, expiresAt: nat)

  datatype Grant = Grant(code: string, principal: Principal)

  // `offers` are the codes issued so far, `grants` the tokens handed out with the
  // code each was exchanged for, `revoked` the tokens revoked, `latest` the
  // latest clock reading of an exchange, when dead sessions are dropped.
  datatype World = World(
    state: State,
    offers: map<string, Offer>,
    grants: map<string, Grant>,
    revoked: set<string>,
    latest: nat)

  const DAWN := World(State([], []), map[], map[], {}, 0)

  // A refused call changes nothing; the others carry the record they found.
  datatype Op =
    | Issue(camera: string, ttl: nat, now: nat, code: string, id: string)
    | Trade(code: string, ttl: nat, now: nat, token: string, id: string, k: nat)
    | Withdraw(token: string, now: nat, k: nat)
    | Refuse

  ghost predicate Injective(sha256: string -> Digest) {
    forall a, b :: sha256(a) == sha256(b) ==> a == b
  }

  predicate Secret(s: string) {
    s != "" && Trim(s) == s
  }

  predicate Allowed(sha256: string -> Digest, w: World, op: Op) {
    match op
    case Issue(camera, ttl, _, code, _) =>
      ValidateCamera(camera).Granted? && 60 <= ttl <= 1800 && Secret(code) && code !in w.offers
    case Trade(code, ttl, now, token, _, k) =>
      && !Blank(code) && ttl != 0 && FirstOpen(w.state.pairings, sha256(Trim(code)), now, k)
      && Secret(token) && token !in w.grants
    case Withdraw(token, _, k) => FirstRevocable(w.state.sessions, sha256(Trim(token)), k)
    case Refuse => true
  }

  function Apply(sha256: string -> Digest, w: World, op: Op): World
    requires Allowed(sha256, w, op)
  {
    match op
    case Issue(camera, ttl, now, code, id) =>
      var pairing := Pairing(id, sha256(code), ValidateCamera(camera).value, SaturatingAdd(now, ttl), None);
      w.(state := Issued(w.state, now, pairing), offers := w.offers[code := Offer(pairing.camera, pairing.expiresAt)])
    case Trade(code, ttl, now, token, id, k) =>
      var session := Session(id, sha256(token), w.state.pairings[k].camera, SaturatingAdd(now, ttl), None);
      w.(state := Exchanged(w.state, k, now, session),
         grants := w.grants[token := Grant(Trim(code), PrincipalOf(session))],
         latest := Max(w.latest, now))
    case Withdraw(token, now, k) =>
      w.(state := Revoked(w.state, k, now), revoked := w.revoked + {Trim(token)})
    case Refuse => w
  }

  ghost predicate IsRun(sha256: string -> Digest, worlds: seq<World>, ops: seq<Op>) {
    && |worlds| == |ops| + 1 && worlds[0] == DAWN
    && forall i :: 0 <= i < |ops| ==>
                     Allowed(sha256, worlds[i], ops[i]) && worlds[i + 1] == Apply(sha256, worlds[i], ops[i])
  }

  // --------------------------------------------------------------- invariant

  predicate Spent(w: World, code: string) {
    exists t :: t in w.grants && w.grants[t].code == code
  }

  // A pairing on record is an issued one, and open only while unspent.
  predicate PairingOk(sha256: string -> Digest, w: World, p: Pairing) {
    exists c :: c in w.offers && sha256(c) == p.codeHash && w.offers[c] == Offer(p.camera, p.expiresAt)
                && (p.consumedAt.None? ==> !Spent(w, c))
  }

  // A session on record is a granted one, marked revoked only if it was.
  predicate SessionOk(sha256: string -> Digest, w: World, s: Session) {
    exists t :: t in w.grants && sha256(t) == s.tokenHash && w.grants[t].principal == PrincipalOf(s)
                && (s.revokedAt.Some? <==> t in w.revoked)
  }

  // A granted token's session is on record unless it was dropped as dead.
  predicate GrantOk(sha256: string -> Digest, w: World, t: string) {
    t in w.grants ==>
      && w.grants[t].code in w.offers && w.offers[w.grants[t].code].camera == w.grants[t].principal.camera
      && (t in w.revoked || w.grants[t].principal.expiresAt <= w.latest
          || exists s :: s in w.state.sessions && s.tokenHash == sha256(t))
  }

  predicate TokensApart(ss: seq<Session>) {
    forall i, j :: 0 <= i < j < |ss| ==> ss[i].tokenHash != ss[j].tokenHash
  }

  predicate CodesApart(ps: seq<Pairing>) {
    forall i, j :: 0 <= i < j < |ps| ==> ps[i].codeHash != ps[j].codeHash
  }

  ghost predicate Inv(sha256: string -> Digest, w: World) {
    && (forall p :: p in w.state.pairings ==> PairingOk(sha256, w, p))
    && (forall s :: s in w.state.sessions ==> SessionOk(sha256, w, s))
    && TokensApart(w.state.sessions) && CodesApart(w.state.pairings)
    && (forall t :: t in w.grants ==> GrantOk(sha256, w, t) && Secret(t))
    && (forall t, u :: t in w.grants && u in w.grants && w.grants[t].code == w.grants[u].code ==> t == u)
    && w.revoked <= w.grants.Keys
  }

  // ------------------------------------------------------- dropping dead records

  lemma {:induction false} OpenOnesAre(ps: seq<Pairing>, now: nat)
    ensures forall p :: p in OpenOnes(ps, now) <==> p in ps && Open(p, now)
  {
    if ps != [] {
      var n := |ps| - 1;
      OpenOnesAre(ps[..n], now);
      assert ps == ps[..n] + [ps[n]];
    }
  }

  lemma {:induction false} LiveOnesAre(ss: seq<Session>, now: nat)
    ensures forall s :: s in LiveOnes(ss, now) <==> s in ss && Live(s, now)
  {
    if ss != [] {
      var n := |ss| - 1;
      LiveOnesAre(ss[..n], now);
      assert ss == ss[..n] + [ss[n]];
    }
  }

  lemma {:induction false} LiveOnesApart(ss: seq<Session>, now: nat)
    requires TokensApart(ss)
    ensures TokensApart(LiveOnes(ss, now))
  {
    if ss != [] {
      var n := |ss| - 1;
      LiveOnesApart(ss[..n], now);
      LiveOnesAre(ss[..n], now);
      assert forall s :: s in LiveOnes(ss[..n], now) ==> s.tokenHash != ss[n].tokenHash;
    }
  }

  lemma {:induction false} OpenOnesApart(ps: seq<Pairing>, now: nat)
    requires CodesApart(ps)
    ensures CodesApart(OpenOnes(ps, now))
  {
    if ps != [] {
      var n := |ps| - 1;
      OpenOnesApart(ps[..n], now);
      OpenOnesAre(ps[..n], now);
      assert forall p :: p in OpenOnes(ps[..n], now) ==> p.codeHash != ps[n].codeHash;
    }
  }

  // ---------------------------------------------------------------- each step

  lemma IssueKeeps(sha256: string -> Digest, w: World, camera: string, ttl: nat, now: nat, code: string, id: string)
    requires Injective(sha256) && Inv(sha256, w) && Allowed(sha256, w, Issue(camera, ttl, now, code, id))
    ensures Inv(sha256, Apply(sha256, w, Issue(camera, ttl, now, code, id)))
  {
    hide ValidateCamera, OpenOnes;
    var x := Apply(sha256, w, Issue(camera, ttl, now, code, id));
    var added := x.state.pairings[|x.state.pairings| - 1];
    OpenOnesAre(w.state.pairings, now);
    OpenOnesApart(w.state.pairings, now);
    assert forall c :: Spent(x, c) <==> Spent(w, c);
    assert !Spent(w, code);
    forall p | p in x.state.pairings
      ensures PairingOk(sha256, x, p)
      ensures p in OpenOnes(w.state.pairings, now) ==> p.codeHash != sha256(code)
    {
      if p in OpenOnes(w.state.pairings, now) {
        assert PairingOk(sha256, w, p);
      } else {
        assert p == added && code in x.offers;
      }
    }
    forall s | s in x.state.sessions
      ensures SessionOk(sha256, x, s)
    {
      assert SessionOk(sha256, w, s);
    }
  }

  // The code exchanged is an issued one that has granted nothing yet.
  lemma TradeIsFirst(sha256: string -> Digest, w: World, code: string, k: nat, now: nat)
    requires Injective(sha256) && Inv(sha256, w) && FirstOpen(w.state.pairings, sha256(Trim(code)), now, k)
    ensures Trim(code) in w.offers && !Spent(w, Trim(code))
    ensures w.offers[Trim(code)] == Offer(w.state.pairings[k].camera, w.state.pairings[k].expiresAt)
  {
    assert PairingOk(sha256, w, w.state.pairings[k]);
  }

  lemma TradePairings(sha256: string -> Digest, w: World, op: Op, p: Pairing)
    requires Injective(sha256) && Inv(sha256, w) && op.Trade? && Allowed(sha256, w, op)
    requires p in Apply(sha256, w, op).state.pairings
    ensures PairingOk(sha256, Apply(sha256, w, op), p)
  {
    hide LiveOnes;
    var x := Apply(sha256, w, op);
    TradeIsFirst(sha256, w, op.code, op.k, op.now);
    var i :| 0 <= i < |x.state.pairings| && x.state.pairings[i] == p;
    assert PairingOk(sha256, w, w.state.pairings[i]);
    var c :| c in w.offers && sha256(c) == p.codeHash && w.offers[c] == Offer(p.camera, p.expiresAt)
             && (w.state.pairings[i].consumedAt.None? ==> !Spent(w, c));
    if i != op.k && p.consumedAt.None? {
      assert c != Trim(op.code);
      assert !Spent(x, c);
    }
  }

  lemma TradeSessions(sha256: string -> Digest, w: World, op: Op)
    requires Injective(sha256) && Inv(sha256, w) && op.Trade? && Allowed(sha256, w, op)
    ensures var x := Apply(sha256, w, op);
            (forall s :: s in x.state.sessions ==> SessionOk(sha256, x, s)) && TokensApart(x.state.sessions)
  {
    hide LiveOnes, FirstOpen;
    var x := Apply(sha256, w, op);
    LiveOnesAre(w.state.sessions, op.now);
    LiveOnesApart(w.state.sessions, op.now);
    forall s | s in x.state.sessions
      ensures SessionOk(sha256, x, s)
      ensures s in LiveOnes(w.state.sessions, op.now) ==> s.tokenHash != sha256(op.token)
    {
      if s in LiveOnes(w.state.sessions, op.now) {
        assert SessionOk(sha256, w, s);
      } else {
        assert op.token in x.grants;
      }
    }
  }

  lemma TradeGrants(sha256: string -> Digest, w: World, op: Op, t: string)
    requires Injective(sha256) && Inv(sha256, w) && op.Trade? && Allowed(sha256, w, op)
    requires t in Apply(sha256, w, op).grants
    ensures GrantOk(sha256, Apply(sha256, w, op), t) && Secret(t)
  {
    hide LiveOnes;
    var x := Apply(sha256, w, op);
    TradeIsFirst(sha256, w, op.code, op.k, op.now);
    LiveOnesAre(w.state.sessions, op.now);
    if t == op.token {
      assert x.state.sessions[|x.state.sessions| - 1].tokenHash == sha256(t);
    } else {
      assert GrantOk(sha256, w, t);
      if t !in w.revoked && w.grants[t].principal.expiresAt > x.latest {
        var s :| s in w.state.sessions && s.tokenHash == sha256(t);
        assert SessionOk(sha256, w, s);
        assert s in x.state.sessions;
      }
    }
  }

  lemma TradeKeeps(sha256: string -> Digest, w: World, op: Op)
    requires Injective(sha256) && Inv(sha256, w) && op.Trade? && Allowed(sha256, w, op)
    ensures Inv(sha256, Apply(sha256, w, op))
  {
    hide PairingOk, SessionOk, GrantOk, LiveOnes, Secret;
    var x := Apply(sha256, w, op);
    TradeIsFirst(sha256, w, op.code, op.k, op.now);
    TradeSessions(sha256, w, op);
    forall p | p in x.state.pairings ensures PairingOk(sha256, x, p) { TradePairings(sha256, w, op, p); }
    forall t | t in x.grants ensures GrantOk(sha256, x, t) && Secret(t) { TradeGrants(sha256, w, op, t); }
  }

  lemma WithdrawKeeps(sha256: string -> Digest, w: World, op: Op)
    requires Injective(sha256) && Inv(sha256, w) && op.Withdraw? && Allowed(sha256, w, op)
    ensures Inv(sha256, Apply(sha256, w, op)) && Trim(op.token) in w.grants
  {
    var x := Apply(sha256, w, op);
    var withdrawn := w.state.sessions[op.k];
    assert SessionOk(sha256, w, withdrawn);
    assert forall c :: Spent(x, c) <==> Spent(w, c);
    forall p | p in x.state.pairings ensures PairingOk(sha256, x, p) { assert PairingOk(sha256, w, p); }
    forall s | s in x.state.sessions
      ensures SessionOk(sha256, x, s)
    {
      var i :| 0 <= i < |x.state.sessions| && x.state.sessions[i] == s;
      assert SessionOk(sha256, w, w.state.sessions[i]);
    }
    forall t | t in x.grants
      ensures GrantOk(sha256, x, t)
    {
      assert GrantOk(sha256, w, t);
      if s :| s in w.state.sessions && s.tokenHash == sha256(t) {
        var i :| 0 <= i < |w.state.sessions| && w.state.sessions[i] == s;
        assert x.state.sessions[i] in x.state.sessions;
      }
    }
  }

  lemma {:induction false} RunKeeps(sha256: string -> Digest, worlds: seq<World>, ops: seq<Op>, i: nat)
    requires Injective(sha256) && IsRun(sha256, worlds, ops) && i < |worlds|
    ensures Inv(sha256, worlds[i])
  {
    hide Allowed, Apply;
    if i > 0 {
      RunKeeps(sha256, worlds, ops, i - 1);
      match ops[i - 1]
      case Issue(camera, ttl, now, code, id) => IssueKeeps(sha256, worlds[i - 1], camera, ttl, now, code, id);
      case Trade(_, _, _, _, _, _) => TradeKeeps(sha256, worlds[i - 1], ops[i - 1]);
      case Withdraw(_, _, _) => WithdrawKeeps(sha256, worlds[i - 1], ops[i - 1]);
      case Refuse => RefusalChangesNothing(sha256, worlds[i - 1]);
    }
  }

  lemma RefusalChangesNothing(sha256: string -> Digest, w: World)
    ensures Apply(sha256, w, Refuse) == w
  {
  }

  // -------------------------------------------------------------- the theorems

  // Every granted token stems from one issued code, for the same camera, and no
  // code ever granted two.
  lemma OneSessionPerPairing(sha256: string -> Digest, worlds: seq<World>, ops: seq<Op>, i: nat)
    requires Injective(sha256) && IsRun(sha256, worlds, ops) && i < |worlds|
    ensures var w := worlds[i];
            && (forall t :: t in w.grants ==>
                              w.grants[t].code in w.offers
                              && w.offers[w.grants[t].code].camera == w.grants[t].principal.camera)
            && (forall t, u :: t in w.grants && u in w.grants && w.grants[t].code == w.grants[u].code ==> t == u)
            && (forall s :: s in w.state.sessions ==>
                              exists t :: t in w.grants && sha256(t) == s.tokenHash
                                          && w.grants[t].principal == PrincipalOf(s))
  {
    hide Allowed, Apply;
    RunKeeps(sha256, worlds, ops, i);
    var w := worlds[i];
    assert forall t :: t in w.grants ==> GrantOk(sha256, w, t);
    assert forall s :: s in w.state.sessions ==> SessionOk(sha256, w, s);
  }

  // What the store answers to a token: the principal of its first live session.
  ghost predicate Authenticates(sha256: string -> Digest, st: State, token: string, now: nat, p: Principal) {
    && !Blank(token)
    && exists k: nat :: FirstLive(st.sessions, sha256(Trim(token)), now, k) && PrincipalOf(st.sessions[k]) == p
  }

  lemma LiveMeansGranted(sha256: string -> Digest, w: World, token: string, now: nat, p: Principal)
    requires Injective(sha256) && Inv(sha256, w) && Authenticates(sha256, w.state, token, now, p)
    ensures Trim(token) in w.grants && w.grants[Trim(token)].principal == p
    ensures Trim(token) !in w.revoked && p.expiresAt > now
  {
    var k: nat :| FirstLive(w.state.sessions, sha256(Trim(token)), now, k) && PrincipalOf(w.state.sessions[k]) == p;
    assert SessionOk(sha256, w, w.state.sessions[k]);
  }

  lemma GrantedMeansLive(sha256: string -> Digest, w: World, token: string, now: nat)
    requires Injective(sha256) && Inv(sha256, w) && w.latest <= now
    requires Trim(token) in w.grants && Trim(token) !in w.revoked && w.grants[Trim(token)].principal.expiresAt > now
    ensures Authenticates(sha256, w.state, token, now, w.grants[Trim(token)].principal)
  {
    var t := Trim(token);
    assert GrantOk(sha256, w, t) && Secret(t);
    var s :| s in w.state.sessions && s.tokenHash == sha256(t);
    assert SessionOk(sha256, w, s);
    FirstOrNone(w.state.sessions, sha256(t), now);
    if k: nat :| FirstLive(w.state.sessions, sha256(t), now, k) {
      assert SessionOk(sha256, w, w.state.sessions[k]);
    } else {
      assert LiveWith(s, sha256(t), now);
      assert false;
    }
  }

  // In every run a token authenticates exactly while it is granted, not revoked
  // and not expired, whatever dead records were dropped in between, and always as
  // the principal it was granted for.
  lemma AuthenticationIsExact(sha256: string -> Digest, worlds: seq<World>, ops: seq<Op>, i: nat, token: string,
                              now: nat, p: Principal)
    requires Injective(sha256) && IsRun(sha256, worlds, ops) && i < |worlds| && worlds[i].latest <= now
    ensures var w := worlds[i];
            Authenticates(sha256, w.state, token, now, p) <==>
            && Trim(token) in w.grants && w.grants[Trim(token)].principal == p
            && Trim(token) !in w.revoked && now < p.expiresAt
  {
    hide Allowed, Apply, Inv, Authenticates;
    RunKeeps(sha256, worlds, ops, i);
    var w := worlds[i];
    if Authenticates(sha256, w.state, token, now, p) {
      LiveMeansGranted(sha256, w, token, now, p);
    }
    if Trim(token) in w.grants && w.grants[Trim(token)].principal == p && Trim(token) !in w.revoked
       && now < p.expiresAt
    {
      GrantedMeansLive(sha256, w, token, now);
    }
  }

  lemma {:induction false} HistoryGrows(sha256: string -> Digest, worlds: seq<World>, ops: seq<Op>, i: nat, j: nat)
    requires Injective(sha256) && IsRun(sha256, worlds, ops) && i <= j < |worlds|
    ensures worlds[i].revoked <= worlds[j].revoked
    ensures forall t :: t in worlds[i].grants ==> t in worlds[j].grants && worlds[j].grants[t] == worlds[i].grants[t]
    decreases j
  {
    if i < j {
      HistoryGrows(sha256, worlds, ops, i, j - 1);
    }
  }

  // A revoked session, or one past its expiry, never authenticates again.
  lemma DeadSessionsStayDead(sha256: string -> Digest, worlds: seq<World>, ops: seq<Op>, i: nat, j: nat, token: string,
                             now: nat, p: Principal)
    requires Injective(sha256) && IsRun(sha256, worlds, ops) && i <= j < |worlds| && Trim(token) in worlds[i].grants
    requires Trim(token) in worlds[i].revoked || worlds[i].grants[Trim(token)].principal.expiresAt <= now
    ensures !Authenticates(sha256, worlds[j].state, token, now, p)
  {
    hide Allowed, Apply, Inv, Authenticates;
    HistoryGrows(sha256, worlds, ops, i, j);
    RunKeeps(sha256, worlds, ops, j);
    if Authenticates(sha256, worlds[j].state, token, now, p) {
      LiveMeansGranted(sha256, worlds[j], token, now, p);
    }
  }

  // After a revocation the token authenticates in no later state, at no time.
  lemma RevocationTakesEffect(sha256: string -> Digest, worlds: seq<World>, ops: seq<Op>, i: nat, j: nat, token: string,
                              later: nat, p: Principal)
    requires Injective(sha256) && IsRun(sha256, worlds, ops) && i < j < |worlds|
    requires ops[i].Withdraw? && Trim(ops[i].token) == Trim(token)
    ensures !Authenticates(sha256, worlds[j].state, token, later, p)
  {
    hide Authenticates, Inv, Trim;
    RunKeeps(sha256, worlds, ops, i);
    WithdrawKeeps(sha256, worlds[i], ops[i]);
    DeadSessionsStayDead(sha256, worlds, ops, i + 1, j, token, later, p);
  }

  // ---------------------------------------------- how long codes and sessions live

  // Seconds in which something made at `now` for `ttl` may be used at time `t`;
  // the clock of 64 bits stands still at its end.
  predicate Within(now: nat, ttl: nat, t: int) {
    t < now + ttl && t < 0xFFFF_FFFF_FFFF_FFFF
  }

  lemma {:induction false} RevokedMeansWithdrawn(sha256: string -> Digest, worlds: seq<World>, ops: seq<Op>, j: nat,
                                                 token: string)
    requires IsRun(sha256, worlds, ops) && j < |worlds|
    ensures token in worlds[j].revoked <==> exists t :: 0 <= t < j && ops[t].Withdraw? && Trim(ops[t].token) == token
  {
    hide Allowed, Trim;
    if j > 0 {
      RevokedMeansWithdrawn(sha256, worlds, ops, j - 1, token);
    }
  }

  // A token traded for a code is good for exactly its own time to live, from the
  // reading of the clock at the trade, unless it was withdrawn; and it is good for
  // the camera of the code and for nobody else's session.
  lemma SessionsLastTheirTime(sha256: string -> Digest, worlds: seq<World>, ops: seq<Op>, i: nat, j: nat, now: nat)
    requires Injective(sha256) && IsRun(sha256, worlds, ops) && i < j < |worlds| && ops[i].Trade?
    requires worlds[j].latest <= now
    ensures (exists p :: Authenticates(sha256, worlds[j].state, ops[i].token, now, p)) <==>
            && Within(ops[i].now, ops[i].ttl, now)
            && !exists t :: 0 <= t < j && ops[t].Withdraw? && Trim(ops[t].token) == ops[i].token
    ensures forall p :: Authenticates(sha256, worlds[j].state, ops[i].token, now, p) ==>
                          p.session == ops[i].id && p.camera == worlds[i].state.pairings[ops[i].k].camera
  {
    hide Allowed, Inv, Authenticates, Trim, Secret;
    var token := ops[i].token;
    assert Allowed(sha256, worlds[i], ops[i]);
    TradeIsRecorded(sha256, worlds[i], ops[i]);
    HistoryGrows(sha256, worlds, ops, i + 1, j);
    RevokedMeansWithdrawn(sha256, worlds, ops, j, token);
    var p := worlds[i + 1].grants[token].principal;
    AuthenticationIsExact(sha256, worlds, ops, j, token, now, p);
    forall q | Authenticates(sha256, worlds[j].state, token, now, q)
      ensures q == p
    {
      AuthenticationIsExact(sha256, worlds, ops, j, token, now, q);
    }
  }

  lemma TradeIsRecorded(sha256: string -> Digest, w: World, op: Op)
    requires op.Trade? && Allowed(sha256, w, op)
    ensures Trim(op.token) == op.token && op.token in Apply(sha256, w, op).grants
    ensures var p := Apply(sha256, w, op).grants[op.token].principal;
            && p.session == op.id && p.camera == w.state.pairings[op.k].camera
            && forall t: int :: t < p.expiresAt <==> Within(op.now, op.ttl, t)
  {
  }

  // The offers made so far are the codes issued, each with its own time to live.
  lemma {:induction false} OffersWereIssued(sha256: string -> Digest, worlds: seq<World>, ops: seq<Op>, j: nat,
                                            code: string)
    requires IsRun(sha256, worlds, ops) && j < |worlds| && code in worlds[j].offers
    ensures exists i :: 0 <= i < j && IssuedAt(ops[i], code, worlds[j].offers[code])
  {
    hide ValidateCamera, FirstOpen, FirstRevocable;
    if code in worlds[j - 1].offers && worlds[j].offers[code] == worlds[j - 1].offers[code] {
      OffersWereIssued(sha256, worlds, ops, j - 1, code);
    } else {
      assert IssuedAt(ops[j - 1], code, worlds[j].offers[code]);
    }
  }

  predicate IssuedAt(op: Op, code: string, offer: Offer) {
    && op.Issue? && op.code == code && ValidateCamera(op.camera) == Granted(offer.camera)
    && offer.expiresAt == if op.now + op.ttl > 0xFFFF_FFFF_FFFF_FFFF then 0xFFFF_FFFF_FFFF_FFFF else op.now + op.ttl
  }

  // A code is traded only within its own time to live, for the camera it was
  // issued for.
  lemma CodesLastTheirTime(sha256: string -> Digest, worlds: seq<World>, ops: seq<Op>, j: nat)
    requires Injective(sha256) && IsRun(sha256, worlds, ops) && j < |ops| && ops[j].Trade?
    ensures exists i :: 0 <= i < j && ops[i].Issue? && ops[i].code == Trim(ops[j].code)
                        && Within(ops[i].now, ops[i].ttl, ops[j].now)
                        && ValidateCamera(ops[i].camera) == Granted(worlds[j].state.pairings[ops[j].k].camera)
  {
    hide Inv, ValidateCamera, Trim;
    RunKeeps(sha256, worlds, ops, j);
    assert Allowed(sha256, worlds[j], ops[j]);
    TradeIsFirst(sha256, worlds[j], ops[j].code, ops[j].k, ops[j].now);
    OffersWereIssued(sha256, worlds, ops, j, Trim(ops[j].code));
  }

  // An unspent code on record, for this camera and this long.
  predicate OnOffer(ps: seq<Pairing>, hash: Digest, offer: Offer) {
    exists k :: 0 <= k < |ps| && ps[k].codeHash == hash && ps[k].consumedAt.None?
                && ps[k].camera == offer.camera && ps[k].expiresAt == offer.expiresAt
  }

  lemma OfferOutlives(sha256: string -> Digest, w: World, op: Op, code: string, offer: Offer, now: nat)
    requires Injective(sha256) && Allowed(sha256, w, op) && OnOffer(w.state.pairings, sha256(code), offer)
    requires op.Issue? ==> op.now <= now
    requires op.Trade? ==> Trim(op.code) != code
    requires now < offer.expiresAt
    ensures OnOffer(Apply(sha256, w, op).state.pairings, sha256(code), offer)
  {
    hide Trim, ValidateCamera, OpenOnes, LiveOnes;
    var ps := w.state.pairings;
    var k :| 0 <= k < |ps| && ps[k].codeHash == sha256(code) && ps[k].consumedAt.None?
             && ps[k].camera == offer.camera && ps[k].expiresAt == offer.expiresAt;
    var after := Apply(sha256, w, op).state.pairings;
    if op.Issue? {
      OpenOnesAre(ps, op.now);
      assert ps[k] in ps && ps[k] in OpenOnes(ps, op.now);
      var n :| 0 <= n < |OpenOnes(ps, op.now)| && OpenOnes(ps, op.now)[n] == ps[k];
      assert after[n] == ps[k];
    } else {
      assert after[k] == ps[k];
    }
  }

  lemma IssueOffers(sha256: string -> Digest, w: World, op: Op)
    requires op.Issue? && Allowed(sha256, w, op)
    ensures ValidateCamera(op.camera).Granted?
    ensures exists offer :: IssuedAt(op, op.code, offer)
                            && OnOffer(Apply(sha256, w, op).state.pairings, sha256(op.code), offer)
  {
    hide Trim, ValidateCamera, OpenOnes;
    var after := Apply(sha256, w, op).state.pairings;
    var added := after[|after| - 1];
    var offer := Offer(added.camera, added.expiresAt);
    assert OnOffer(after, sha256(op.code), offer);
    assert IssuedAt(op, op.code, offer);
  }

  lemma {:induction false} OfferStays(sha256: string -> Digest, worlds: seq<World>, ops: seq<Op>, i: nat, j: nat,
                                      now: nat, offer: Offer)
    requires Injective(sha256) && IsRun(sha256, worlds, ops) && i < j < |worlds| && ops[i].Issue?
    requires forall t :: i < t < j && ops[t].Issue? ==> ops[t].now <= now
    requires forall t :: i < t < j && ops[t].Trade? ==> Trim(ops[t].code) != ops[i].code
    requires OnOffer(worlds[i + 1].state.pairings, sha256(ops[i].code), offer) && now < offer.expiresAt
    ensures OnOffer(worlds[j].state.pairings, sha256(ops[i].code), offer)
    decreases j
  {
    hide Apply, Allowed, Trim, OnOffer;
    if i + 1 < j {
      OfferStays(sha256, worlds, ops, i, j - 1, now, offer);
      OfferOutlives(sha256, worlds[j - 1], ops[j - 1], ops[i].code, offer, now);
    }
  }

  lemma {:induction false} FirstOpenExists(ps: seq<Pairing>, hash: Digest, now: nat, k: nat) returns (first: nat)
    requires k < |ps| && OpensWith(ps[k], hash, now)
    ensures FirstOpen(ps, hash, now, first)
  {
    if i: nat :| i < k && OpensWith(ps[i], hash, now) {
      first := FirstOpenExists(ps, hash, now, i);
    } else {
      first := k;
    }
  }

  // Until its time is over an unspent code can be traded, whatever other codes
  // were issued or traded in between.
  lemma CodesStayGood(sha256: string -> Digest, worlds: seq<World>, ops: seq<Op>, i: nat, j: nat, now: nat)
    requires Injective(sha256) && IsRun(sha256, worlds, ops) && i < j < |worlds| && ops[i].Issue?
    requires forall t :: i < t < j && ops[t].Issue? ==> ops[t].now <= now
    requires forall t :: i < t < j && ops[t].Trade? ==> Trim(ops[t].code) != ops[i].code
    requires Within(ops[i].now, ops[i].ttl, now)
    ensures exists k: nat :: FirstOpen(worlds[j].state.pairings, sha256(ops[i].code), now, k)
  {
    hide Apply, Allowed, Trim, ValidateCamera, FirstOpen;
    IssueOffers(sha256, worlds[i], ops[i]);
    var offer :| IssuedAt(ops[i], ops[i].code, offer)
                 && OnOffer(Apply(sha256, worlds[i], ops[i]).state.pairings, sha256(ops[i].code), offer);
    OfferStays(sha256, worlds, ops, i, j, now, offer);
    var ps := worlds[j].state.pairings;
    var k :| 0 <= k < |ps| && ps[k].codeHash == sha256(ops[i].code) && ps[k].consumedAt.None?
             && ps[k].camera == offer.camera && ps[k].expiresAt == offer.expiresAt;
    var first := FirstOpenExists(ps, sha256(ops[i].code), now, k);
  }
}
