// Where a delivery property stops: the exact condition under which a fallback
// upload survives, and runs that show what happens beyond it.
module DeliveryWitness {
  import opened Prelude
  import opened DeliveryLedger
  import opened DeliveryWorkers
  import opened DeliveryInvariants
  import opened DeliverySteps

  // Settling a successful fallback send keeps the stage's upload reusable
  // exactly when the provider's answer does not carry a blank media identifier.
  lemma AnswerKeepsUploadIff(c: Catalogue, s: System, w: nat, now: Tick)
    requires Inv(c, s) && AtItem(c, s, w) && s.clock <= now
    requires s.workers[w].pc.Settling? && s.workers[w].pc.stage.Fallback? && s.workers[w].pc.answer.Sent?
    requires s.workers[w].pc.prepared.Some? && !Blank(s.workers[w].pc.prepared.value.mediaId)
    requires var me := s.workers[w];
             Has(s.ledger, IdOf(c, me, me.pc.i))
             && ActiveClaim(Get(s.ledger, IdOf(c, me, me.pc.i)), me.pc.hold.token, now)
    ensures var me := s.workers[w];
            var id := IdOf(c, me, me.pc.i);
            var t := ApplySettle(c, s, w, now, None);
            Has(t.ledger, id)
            && (LoadPrepared(Get(t.ledger, id), Fallback).Some? <==> !BlankAnswer(me.pc.answer))
  {
    hide Inv;
    var me := s.workers[w];
    var id := IdOf(c, me, me.pc.i);
    var outcome := StageOutcome(me.pc.answer, me.pc.prepared);
    assert Get(ApplySettle(c, s, w, now, None).ledger, id) == SettleStage(Get(s.ledger, id), Fallback, outcome);
  }

  // -------------------------------------------------- a second fallback upload

  const VIDEO := PlanItem("k", "a", "video", Outbound("b", None), false)
  const PLAN := Delivery(Outbound("b", None), [VIDEO], 300)
  const BOOK: Catalogue := map[("d", "f") := PLAN]
  const AT := ItemId("d", "k")
  const UPLOAD := Upload("m", None, None)
  const NO_VIDEO := Failure("UNSUPPORTED_NATIVE_VIDEO", "unsupported")
  const EMPTY_ANSWER := Sent(Response(Some(""), None, None))
  const LATER: Tick := 400 * SECOND

  function Request(owner: string): ClaimRequest {
    ClaimRequest("d", "f", "k", "a", "video", owner, None, 300)
  }

  const PLANNED := FreshItem(VIDEO, "f", 0)
  const CLAIMED := GrantClaim(PLANNED, Request("o"), "t0", 0)
  const REFUSED := SettleStage(CLAIMED, Native, StageOutcome(NotSent(NO_VIDEO), None))
  const STORED := StoreUpload(REFUSED, Fallback, UPLOAD, 0)
  const BLANKED := SettleStage(STORED, Fallback, StageOutcome(EMPTY_ANSWER, Some(UPLOAD)))
  const RECLAIMED := GrantClaim(BLANKED, Request("p"), "t1", LATER)

  function Book(item: Item): Ledger {
    map["d" := Record("f", Some(Outbound("b", None)), map["k" := item])]
  }

  ghost predicate Reachable(s: System) {
    exists states, steps :: IsRun(BOOK, states, steps) && states[|steps|] == s
  }

  lemma ReachNext(s: System, step: Step)
    requires Reachable(s) && Enabled(BOOK, s, step)
    ensures Reachable(Apply(BOOK, s, step))
  {
    hide Enabled, Apply;
    var states, steps :| IsRun(BOOK, states, steps) && states[|steps|] == s;
    assert IsRun(BOOK, states + [Apply(BOOK, s, step)], steps + [step]);
  }

  const W0 := Worker("d", "f", "o", Idle)
  const W1 := Worker("d", "f", "p", Idle)
  const HOLD0 := Hold("t0", CLAIMED, CLAIMED, {}, true, true)
  const HOLD1 := HOLD0.(view := REFUSED)
  const HOLD2 := HOLD1.(view := STORED)
  const HOLD3 := HOLD2.(view := BLANKED)
  const HOLD4 := Hold("t1", RECLAIMED, RECLAIMED, {Fallback}, false, true)
  const CLAIMS := History({AT}, {}, {}, {}, {})
  const UPLOADS := History({AT}, {(AT, Fallback)}, {}, {AT}, {})
  const BLANKS := History({AT}, {(AT, Fallback)}, {AT}, {AT}, {})

  // The first worker's program counters and the state at each of them.
  function Alone(ledger: Ledger, pc: Pc, used: set<string>, past: History): System {
    System(0, ledger, map[0 := W0.(pc := pc)], used, past)
  }

  const S1 := Alone(map[], Idle, {}, START.past)
  const S2 := Alone(Book(PLANNED), Next(0), {}, START.past)
  const S3 := Alone(Book(PLANNED), ReadyToClaim(0, None), {}, START.past)
  const S4 := Alone(Book(CLAIMED), Entering(0, HOLD0, Native), {"t0"}, CLAIMS)
  const S5 := Alone(Book(CLAIMED), Calling(0, HOLD0, Native, None), {"t0"}, CLAIMS)
  const S6 := Alone(Book(CLAIMED), Settling(0, HOLD0, Native, None, NotSent(NO_VIDEO)), {"t0"}, CLAIMS)
  const S7 := Alone(Book(REFUSED), Entering(0, HOLD1, Fallback), {"t0"}, CLAIMS)
  const S8 := Alone(Book(REFUSED), Uploading(0, HOLD1, Fallback, UPLOAD), {"t0"}, CLAIMS)
  const S9 := Alone(Book(STORED), Calling(0, HOLD2, Fallback, Some(UPLOAD)), {"t0"}, UPLOADS)
  const S10 := Alone(Book(STORED), Settling(0, HOLD2, Fallback, Some(UPLOAD), EMPTY_ANSWER), {"t0"}, UPLOADS)
  const S11 := Alone(Book(BLANKED), Closing(0, HOLD3, Some(UPLOAD), EMPTY_ANSWER, true), {"t0"}, BLANKS)

  // The first worker crashes at S11; a second one starts after its lease.
  function Both(clock: Tick, ledger: Ledger, pc: Pc, used: set<string>): System {
    System(clock, ledger, map[0 := S11.workers[0], 1 := W1.(pc := pc)], used, BLANKS)
  }

  const S12 := Both(0, Book(BLANKED), Idle, {"t0"})
  const S13 := Both(LATER, Book(BLANKED), Next(0), {"t0"})
  const S14 := Both(LATER, Book(BLANKED), ReadyToClaim(0, None), {"t0"})
  const S15 := Both(LATER, Book(RECLAIMED), Entering(0, HOLD4, Fallback), {"t0", "t1"})

  ghost predicate Leads(s: System, step: Step, t: System) {
    Enabled(BOOK, s, step) && Apply(BOOK, s, step) == t
  }

  lemma PutBook(a: Item, b: Item)
    ensures Has(Book(a), AT) && Get(Book(a), AT) == a && Put(Book(a), AT, b) == Book(b)
  {
    assert map["k" := a]["k" := b] == map["k" := b];
    assert map["d" := Book(a)["d"]]["d" := Book(b)["d"]] == Book(b);
  }

  lemma Plans()
    ensures Leads(START, Spawn(0, "d", "f", "o"), S1)
    ensures Leads(S1, Persist(0, 0, None), S2)
  {
    assert PlanItems(map["k" := PLANNED], "f", [], 0) == Ok(map["k" := PLANNED]);
    assert PLAN.items[1..] == [];
    assert map[0 := W0][0 := W0.(pc := Next(0))] == map[0 := W0.(pc := Next(0))];
  }

  lemma Walks()
    ensures Leads(S2, Walk(0, 0, "t0", None), S3)
  {
    assert S2.workers[0 := W0.(pc := ReadyToClaim(0, None))] == S3.workers;
  }

  lemma Claims()
    ensures Leads(S3, Claim(0, 0, "t0", true, None), S4)
  {
    assert PLANNED.(fingerprint := Some("f")) == PLANNED;
    PutBook(PLANNED, CLAIMED);
    ClaimIsPut(Book(PLANNED), Request("o"), "t0", 0);
    assert RequestOf(BOOK, S3.workers[0]) == Request("o");
    assert HoldOn(S3.past, AT, "t0", CLAIMED, true) == HOLD0;
    assert S3.past.(claimed := S3.past.claimed + {AT}) == CLAIMS;
    assert S3.workers[0 := S4.workers[0]] == S4.workers;
  }

  lemma RefusesNative()
    ensures Leads(S4, Enter(0, None, NothingToUpload, None), S5)
    ensures Leads(S5, Call(0, NotSent(NO_VIDEO)), S6)
  {
    assert S4.workers[0 := S5.workers[0]] == S5.workers;
    assert S5.workers[0 := S6.workers[0]] == S6.workers;
  }

  lemma TurnsToFallback()
    ensures Leads(S6, Step.Settle(0, 0, None), S7)
  {
    hide StageOutcome, SettleStage;
    PutBook(CLAIMED, REFUSED);
    assert S6.workers[0 := S7.workers[0]] == S7.workers;
  }

  lemma Prepares()
    ensures Leads(S7, Enter(0, None, Uploaded(UPLOAD), None), S8)
  {
    assert S7.workers[0 := S8.workers[0]] == S8.workers;
    assert !Blank(UPLOAD.mediaId);
  }

  lemma Uploads()
    ensures Leads(S8, Step.Store(0, 0, None, None), S9)
  {
    hide StageOutcome, REFUSED, ActiveClaim;
    ClaimsRun();
    PutBook(REFUSED, STORED);
    assert S8.workers[0 := S9.workers[0]] == S9.workers;
    assert !Blank(UPLOAD.mediaId);
  }

  lemma AnswersBlank()
    ensures Leads(S9, Call(0, EMPTY_ANSWER), S10)
  {
    assert S9.workers[0 := S10.workers[0]] == S10.workers;
  }

  // The first worker's claim is running and names its token at every step.
  lemma ClaimsRun()
    ensures ActiveClaim(CLAIMED, "t0", 0) && ActiveClaim(REFUSED, "t0", 0) && ActiveClaim(STORED, "t0", 0)
  {
    hide StageOutcome;
  }

  lemma SettlesBlank()
    ensures Leads(S10, Step.Settle(0, 0, None), S11)
  {
    hide StageOutcome, STORED, ActiveClaim;
    ClaimsRun();
    PutBook(STORED, BLANKED);
    assert S10.workers[0 := S11.workers[0]] == S11.workers;
    assert Blank("");
  }

  lemma Restarts()
    ensures Leads(S11, Spawn(1, "d", "f", "p"), S12)
    ensures Leads(S12, Persist(1, LATER, None), S13)
  {
    hide BLANKED;
    var items := map["k" := BLANKED];
    KnownItem();
    assert PlannedItem(items, "f", VIDEO, LATER) == BLANKED;
    assert items["k" := BLANKED] == items;
    assert PLAN.items[1..] == [];
    assert PlanItems(items, "f", [], LATER) == Ok(items);
    assert S11.workers[1 := W1] == S12.workers;
    assert S12.workers[1 := S13.workers[1]] == S13.workers;
    assert Book(BLANKED)["d" := Book(BLANKED)["d"]] == Book(BLANKED);
  }

  // The item as the crash leaves it: still sending, its lease over by `LATER`.
  lemma KnownItem()
    ensures BLANKED.artifactId == "a" && BLANKED.kind == "video" && BLANKED.fingerprint == Some("f")
    ensures BLANKED.planned.Some? && BLANKED.materialization.Some?
    ensures BLANKED.status.Sending? && BLANKED.updatedAt.Some? && BLANKED.claimExpiresAt == At(300 * SECOND)
    ensures BLANKED.native.status.Unsupported? && BLANKED.fallback.mediaId == Some("")
    ensures BLANKED.cachePath.None?
  {
  }

  lemma WalksAgain()
    ensures Leads(S13, Walk(1, LATER, "t1", None), S14)
  {
    assert S13.workers[1 := S14.workers[1]] == S14.workers;
  }

  lemma Reclaims()
    ensures Leads(S14, Claim(1, LATER, "t1", true, None), S15)
  {
    hide BLANKED;
    KnownItem();
    assert BLANKED.(fingerprint := Some("f")) == BLANKED;
    PutBook(BLANKED, RECLAIMED);
    ClaimIsPut(Book(BLANKED), Request("p"), "t1", LATER);
    assert RequestOf(BOOK, S14.workers[1]) == Request("p");
    assert HoldOn(BLANKS, AT, "t1", RECLAIMED, true) == HOLD4;
    assert BLANKS.(claimed := BLANKS.claimed + {AT}) == BLANKS;
    assert {"t0"} + {"t1"} == {"t0", "t1"};
    assert S14.workers[1 := S15.workers[1]] == S15.workers;
  }

  lemma Again()
    ensures Enabled(BOOK, S15, Enter(1, None, NothingToUpload, None))
    ensures CallsPrepare(S15, Enter(1, None, NothingToUpload, None))
  {
    KnownItem();
    assert Blank("");
  }

  lemma Reaches(s: System, step: Step, t: System)
    requires Reachable(s) && Leads(s, step, t)
    ensures Reachable(t)
  {
    ReachNext(s, step);
  }

  lemma StartIsReachable()
    ensures Reachable(START)
  {
    assert IsRun(BOOK, [START], []);
  }

  // Up to the crash, with the fallback's upload overwritten.
  lemma CrashIsReachable()
    ensures Reachable(S11)
  {
    hide Leads, Reachable;
    StartIsReachable();
    Plans();
    Reaches(START, Spawn(0, "d", "f", "o"), S1);
    Reaches(S1, Persist(0, 0, None), S2);
    Walks();
    Reaches(S2, Walk(0, 0, "t0", None), S3);
    Claims();
    Reaches(S3, Claim(0, 0, "t0", true, None), S4);
    RefusesNative();
    Reaches(S4, Enter(0, None, NothingToUpload, None), S5);
    Reaches(S5, Call(0, NotSent(NO_VIDEO)), S6);
    TurnsToFallback();
    Reaches(S6, Step.Settle(0, 0, None), S7);
    Prepares();
    Reaches(S7, Enter(0, None, Uploaded(UPLOAD), None), S8);
    Uploads();
    Reaches(S8, Step.Store(0, 0, None, None), S9);
    AnswersBlank();
    Reaches(S9, Call(0, EMPTY_ANSWER), S10);
    SettlesBlank();
    Reaches(S10, Step.Settle(0, 0, None), S11);
  }

  lemma SecondClaimIsReachable()
    ensures Reachable(S15)
  {
    hide Leads, Reachable;
    CrashIsReachable();
    Restarts();
    Reaches(S11, Spawn(1, "d", "f", "p"), S12);
    Reaches(S12, Persist(1, LATER, None), S13);
    WalksAgain();
    Reaches(S13, Walk(1, LATER, "t1", None), S14);
    Reclaims();
    Reaches(S14, Claim(1, LATER, "t1", true, None), S15);
  }

  // An upload for the fallback is on record, the provider's success carries an
  // empty media identifier, and the worker crashes before it closes the item:
  // the next claim uploads the fallback form a second time.
  lemma BlankAnswerCausesSecondUpload()
    ensures exists s, step :: && Reachable(s) && Enabled(BOOK, s, step) && CallsPrepare(s, step)
                              && s.workers[step.w].pc.stage.Fallback? && Fallback in s.workers[step.w].pc.hold.late
  {
    hide Reachable, RECLAIMED;
    SecondClaimIsReachable();
    Again();
    assert S15.workers[1].pc == Entering(0, HOLD4, Fallback);
  }

  // ---------------------------------------------------------- the spare second

  // However the claim is granted, reconciliation leaves the item sending for as
  // long as its lease runs.
  ghost predicate LeaseIsSafe(item: Item, r: ClaimRequest, ttl: Tick) {
    forall token, granted, now ::
      ActiveClaim(GrantClaim(item, r, token, granted), token, now) ==>
        Reconciled(GrantClaim(item, r, token, granted), now, ttl).status.Sending?
  }

  // The fraction of a second that `updated_at` drops must be to spare: a cache
  // life is long enough exactly when it exceeds the lease by a second, or the
  // item has no cache file or is not up for another attempt.
  lemma LeaseIsSafeIff(item: Item, r: ClaimRequest, ttlSeconds: nat)
    ensures LeaseIsSafe(item, r, ttlSeconds * SECOND) <==>
            !item.retryable || !NonBlank(r.cachePath) || Max(r.leaseSeconds, 1) + 1 <= ttlSeconds
  {
    hide Blank;
    var lease := Max(r.leaseSeconds, 1);
    forall token, granted, now | ActiveClaim(GrantClaim(item, r, token, granted), token, now)
      ensures !item.retryable || !NonBlank(r.cachePath) || lease + 1 <= ttlSeconds ==>
                Reconciled(GrantClaim(item, r, token, granted), now, ttlSeconds * SECOND).status.Sending?
    {
      LeaseAge(granted, now, lease, ttlSeconds);
    }
    if item.retryable && NonBlank(r.cachePath) && ttlSeconds <= lease {
      LastTick(item, r, ttlSeconds);
    }
  }

  lemma LeaseAge(granted: Tick, now: Tick, lease: nat, ttlSeconds: nat)
    requires now < granted + lease * SECOND
    ensures lease + 1 <= ttlSeconds ==> now - WholeSecond(granted) <= ttlSeconds * SECOND
  {
    assert lease + 1 <= ttlSeconds ==> (lease + 1) * SECOND <= ttlSeconds * SECOND;
  }

  // A claim granted in the last instant of a second is swept in the last instant
  // of its lease.
  lemma LastTick(item: Item, r: ClaimRequest, ttlSeconds: nat)
    requires item.retryable && NonBlank(r.cachePath) && ttlSeconds <= Max(r.leaseSeconds, 1)
    ensures var granted := SECOND - 1;
            var now := granted + Max(r.leaseSeconds, 1) * SECOND - 1;
            && ActiveClaim(GrantClaim(item, r, "t", granted), "t", now)
            && Reconciled(GrantClaim(item, r, "t", granted), now, ttlSeconds * SECOND).status.Expired?
  {
    hide Blank;
    assert WholeSecond(SECOND - 1) == 0;
    assert ttlSeconds * SECOND <= Max(r.leaseSeconds, 1) * SECOND;
  }
}
