// One-time pairing codes and the device sessions they are exchanged for. The
// store keeps digests only; each operation runs under the store's lock and
// persists its changes only when it succeeds.
module DeviceSessions {
  import opened Prelude

  // ------------------------------------------------------------- data model

  // The hexadecimal text of a SHA-256 digest, as bytes.
  type Digest = seq<bv8>

  datatype Pairing = Pairing(
    id: string, codeHash: Digest, camera: string, expiresAt: nat, consumedAt: Option<nat>)

  datatype Session = Session(
    id: string, tokenHash: Digest, camera: string, expiresAt: nat, revokedAt: Option<nat>)

  datatype State = State(pairings: seq<Pairing>, sessions: seq<Session>)

  datatype Error = InvalidPairing | InvalidSession | CameraDenied | Unavailable

  datatype Answer<+T> = Granted(value: T) | Refused(error: Error)

  datatype Principal = Principal(session: string, camera: string, expiresAt: nat)

  const U64_MAX: nat := 0xFFFF_FFFF_FFFF_FFFF

  function SaturatingAdd(a: nat, b: nat): nat {
    if a + b > U64_MAX then U64_MAX else a + b
  }

  // ------------------------------------------------------------- comparisons

  function Difference(left: Digest, right: Digest): bv8
    requires |left| == |right|
  {
    if left == [] then 0
    else Difference(left[..|left| - 1], right[..|right| - 1]) | (left[|left| - 1] ^ right[|right| - 1])
  }

  lemma XorIsDifference(x: bv8, y: bv8)
    ensures x ^ y == 0 <==> x == y
  {
  }

  lemma OrKeepsBits(x: bv8, y: bv8)
    ensures x | y == 0 <==> x == 0 && y == 0
  {
  }

  // The fold has no bit set just when every byte agrees.
  lemma {:induction false} NoDifference(left: Digest, right: Digest)
    requires |left| == |right|
    ensures Difference(left, right) == 0 <==> left == right
  {
    if left != [] {
      var n := |left| - 1;
      NoDifference(left[..n], right[..n]);
      XorIsDifference(left[n], right[n]);
      OrKeepsBits(Difference(left[..n], right[..n]), left[n] ^ right[n]);
      assert left == left[..n] + [left[n]] && right == right[..n] + [right[n]];
    }
  }

  method ConstantTimeEq(left: Digest, right: Digest) returns (same: bool)
    ensures same <==> left == right
  {
    if |left| != |right| {
      return false;
    }
    var difference: bv8 := 0;
    for i := 0 to |left|
      invariant difference == Difference(left[..i], right[..i])
    {
      assert left[..i + 1][..i] == left[..i] && right[..i + 1][..i] == right[..i];
      difference := difference | (left[i] ^ right[i]);
    }
    assert left[..|left|] == left && right[..|right|] == right;
    NoDifference(left, right);
    return difference == 0;
  }

  predicate IsControl(c: char) {
    c < ' ' || '\U{7F}' <= c <= '\U{9F}'
  }

  function ValidateCamera(camera: string): Answer<string> {
    var id := Trim(camera);
    if || id == "" || Utf8Len(id) > 128
       || (exists i :: 0 <= i < |id| && id[i] == '/')
       || (exists i :: 0 <= i < |id| && IsControl(id[i])) then
      Refused(CameraDenied)
    else Granted(id)
  }

  // ----------------------------------------------------- effects as functions

  predicate Open(p: Pairing, now: nat) {
    p.consumedAt.None? && p.expiresAt > now
  }

  predicate Live(s: Session, now: nat) {
    s.revokedAt.None? && s.expiresAt > now
  }

  function OpenOnes(ps: seq<Pairing>, now: nat): seq<Pairing> {
    if ps == [] then []
    else
      var kept := OpenOnes(ps[..|ps| - 1], now);
      if Open(ps[|ps| - 1], now) then kept + [ps[|ps| - 1]] else kept
  }

  function LiveOnes(ss: seq<Session>, now: nat): seq<Session> {
    if ss == [] then []
    else
      var kept := LiveOnes(ss[..|ss| - 1], now);
      if Live(ss[|ss| - 1], now) then kept + [ss[|ss| - 1]] else kept
  }

  predicate OpensWith(p: Pairing, hash: Digest, now: nat) {
    Open(p, now) && p.codeHash == hash
  }

  predicate FirstOpen(ps: seq<Pairing>, hash: Digest, now: nat, k: nat) {
    && k < |ps| && OpensWith(ps[k], hash, now)
    && forall i :: 0 <= i < k ==> !OpensWith(ps[i], hash, now)
  }

  predicate NoneOpens(ps: seq<Pairing>, hash: Digest, now: nat) {
    forall i :: 0 <= i < |ps| ==> !OpensWith(ps[i], hash, now)
  }

  predicate LiveWith(s: Session, hash: Digest, now: nat) {
    Live(s, now) && s.tokenHash == hash
  }

  predicate FirstLive(ss: seq<Session>, hash: Digest, now: nat, k: nat) {
    && k < |ss| && LiveWith(ss[k], hash, now)
    && forall i :: 0 <= i < k ==> !LiveWith(ss[i], hash, now)
  }

  predicate NoneLive(ss: seq<Session>, hash: Digest, now: nat) {
    forall i :: 0 <= i < |ss| ==> !LiveWith(ss[i], hash, now)
  }

  predicate Revocable(s: Session, hash: Digest) {
    s.revokedAt.None? && s.tokenHash == hash
  }

  predicate FirstRevocable(ss: seq<Session>, hash: Digest, k: nat) {
    k < |ss| && Revocable(ss[k], hash) && forall i :: 0 <= i < k ==> !Revocable(ss[i], hash)
  }

  predicate NoneRevocable(ss: seq<Session>, hash: Digest) {
    forall i :: 0 <= i < |ss| ==> !Revocable(ss[i], hash)
  }

  // The pairing is consumed, dead sessions are dropped and one is added.
  function Exchanged(st: State, k: nat, now: nat, session: Session): State
    requires k < |st.pairings|
  {
    State(st.pairings[k := st.pairings[k].(consumedAt := Some(now))], LiveOnes(st.sessions, now) + [session])
  }

  function Issued(st: State, now: nat, pairing: Pairing): State {
    st.(pairings := OpenOnes(st.pairings, now) + [pairing])
  }

  function Revoked(st: State, k: nat, now: nat): State
    requires k < |st.sessions|
  {
    st.(sessions := st.sessions[k := st.sessions[k].(revokedAt := Some(now))])
  }

  function PrincipalOf(s: Session): Principal {
    Principal(s.id, s.camera, s.expiresAt)
  }

  // ------------------------------------------------------------------ the store

  class Store {
    const sha256: string -> Digest
    var pairings: seq<Pairing>
    var sessions: seq<Session>

    function Contents(): State
      reads this
    {
      State(pairings, sessions)
    }

    constructor (sha256: string -> Digest)
      ensures Contents() == State([], []) && this.sha256 == sha256
    {
      this.sha256 := sha256;
      pairings, sessions := [], [];
    }

    method IssuePairing(camera: string, ttl: nat, now: nat, code: string, id: string) returns (r: Answer<string>)
      modifies this
      ensures var valid := ValidateCamera(camera);
              if valid.Refused? then r == valid && Contents() == old(Contents())
              else if !(60 <= ttl <= 1800) then r == Refused(Unavailable) && Contents() == old(Contents())
              else
                && r == Granted(code)
                && Contents() == Issued(old(Contents()), now,
                                        Pairing(id, sha256(code), valid.value, SaturatingAdd(now, ttl), None))
    {
      var valid := ValidateCamera(camera);
      if valid.Refused? {
        return valid;
      }
      if !(60 <= ttl <= 1800) {
        return Refused(Unavailable);
      }
      var kept: seq<Pairing> := [];
      for i := 0 to |pairings|
        invariant kept == OpenOnes(pairings[..i], now)
        invariant unchanged(this)
      {
        assert pairings[..i + 1][..i] == pairings[..i];
        if pairings[i].expiresAt > now && pairings[i].consumedAt.None? {
          kept := kept + [pairings[i]];
        }
      }
      assert pairings[..|pairings|] == pairings;
      pairings := kept + [Pairing(id, sha256(code), valid.value, SaturatingAdd(now, ttl), None)];
      return Granted(code);
    }

    method Exchange(code: string, ttl: nat, now: nat, token: string, id: string) returns (r: Answer<Principal>)
      modifies this
      ensures Blank(code) || ttl == 0 || NoneOpens(old(pairings), sha256(Trim(code)), now) ==>
                r == Refused(InvalidPairing) && Contents() == old(Contents())
      ensures forall k: nat :: !Blank(code) && ttl != 0 && FirstOpen(old(pairings), sha256(Trim(code)), now, k) ==>
                var session := Session(id, sha256(token), old(pairings)[k].camera, SaturatingAdd(now, ttl), None);
                r == Granted(PrincipalOf(session)) && Contents() == Exchanged(old(Contents()), k, now, session)
    {
      if Trim(code) == "" || ttl == 0 {
        return Refused(InvalidPairing);
      }
      var hash := sha256(Trim(code));
      var k := 0;
      while k < |pairings|
        invariant 0 <= k <= |pairings|
        invariant forall i :: 0 <= i < k ==> !OpensWith(pairings[i], hash, now)
        invariant unchanged(this)
      {
        var same := ConstantTimeEq(pairings[k].codeHash, hash);
        if pairings[k].consumedAt.None? && pairings[k].expiresAt > now && same {
          break;
        }
        k := k + 1;
      }
      if k == |pairings| {
        return Refused(InvalidPairing);
      }
      var camera := pairings[k].camera;
      pairings := pairings[k := pairings[k].(consumedAt := Some(now))];
      var kept: seq<Session> := [];
      for i := 0 to |sessions|
        invariant kept == LiveOnes(sessions[..i], now)
        invariant sessions == old(sessions) && k < |old(pairings)|
        invariant pairings == old(pairings)[k := old(pairings)[k].(consumedAt := Some(now))]
      {
        assert sessions[..i + 1][..i] == sessions[..i];
        if sessions[i].expiresAt > now && sessions[i].revokedAt.None? {
          kept := kept + [sessions[i]];
        }
      }
      assert sessions[..|sessions|] == sessions;
      var session := Session(id, sha256(token), camera, SaturatingAdd(now, ttl), None);
      sessions := kept + [session];
      return Granted(PrincipalOf(session));
    }

    method Current(token: string, now: nat) returns (r: Answer<Principal>)
      ensures Blank(token) || NoneLive(sessions, sha256(Trim(token)), now) ==> r == Refused(InvalidSession)
      ensures forall k: nat :: !Blank(token) && FirstLive(sessions, sha256(Trim(token)), now, k) ==>
                                 r == Granted(PrincipalOf(sessions[k]))
    {
      if Trim(token) == "" {
        return Refused(InvalidSession);
      }
      var hash := sha256(Trim(token));
      for k := 0 to |sessions|
        invariant forall i :: 0 <= i < k ==> !LiveWith(sessions[i], hash, now)
      {
        var same := ConstantTimeEq(sessions[k].tokenHash, hash);
        if sessions[k].revokedAt.None? && sessions[k].expiresAt > now && same {
          return Granted(PrincipalOf(sessions[k]));
        }
      }
      return Refused(InvalidSession);
    }

    method Authenticate(token: string, camera: string, now: nat) returns (r: Answer<Principal>)
      ensures ValidateCamera(camera).Refused? ==> r == Refused(CameraDenied)
      ensures ValidateCamera(camera).Granted? && (Blank(token) || NoneLive(sessions, sha256(Trim(token)), now)) ==>
                r == Refused(InvalidSession)
      ensures forall k: nat ::
                ValidateCamera(camera).Granted? && !Blank(token) && FirstLive(sessions, sha256(Trim(token)), now, k) ==>
                  r == if sessions[k].camera == ValidateCamera(camera).value then Granted(PrincipalOf(sessions[k]))
                       else Refused(CameraDenied)
    {
      var valid := ValidateCamera(camera);
      if valid.Refused? {
        return Refused(valid.error);
      }
      var current := Current(token, now);
      FirstOrNone(sessions, sha256(Trim(token)), now);
      if current.Granted? && current.value.camera != valid.value {
        return Refused(CameraDenied);
      }
      return current;
    }

    method Revoke(token: string, now: nat) returns (r: Answer<Unit>)
      modifies this
      ensures NoneRevocable(old(sessions), sha256(Trim(token))) ==>
                r == Refused(InvalidSession) && Contents() == old(Contents())
      ensures forall k: nat :: FirstRevocable(old(sessions), sha256(Trim(token)), k) ==>
                                 r == Granted(Unit) && Contents() == Revoked(old(Contents()), k, now)
    {
      var hash := sha256(Trim(token));
      for k := 0 to |sessions|
        invariant unchanged(this)
        invariant forall i :: 0 <= i < k ==> !Revocable(sessions[i], hash)
      {
        var same := ConstantTimeEq(sessions[k].tokenHash, hash);
        if sessions[k].revokedAt.None? && same {
          sessions := sessions[k := sessions[k].(revokedAt := Some(now))];
          return Granted(Unit);
        }
      }
      return Refused(InvalidSession);
    }
  }

  lemma {:induction false} FirstOrNone(ss: seq<Session>, hash: Digest, now: nat)
    ensures NoneLive(ss, hash, now) || exists k: nat :: FirstLive(ss, hash, now, k)
  {
    if ss != [] {
      var n := |ss| - 1;
      FirstOrNone(ss[..n], hash, now);
      if NoneLive(ss[..n], hash, now) {
        assert forall i :: 0 <= i < n ==> ss[..n][i] == ss[i];
        if LiveWith(ss[n], hash, now) {
          assert FirstLive(ss, hash, now, n);
        }
      } else {
        var k :| FirstLive(ss[..n], hash, now, k);
        assert FirstLive(ss, hash, now, k);
      }
    }
  }
}
