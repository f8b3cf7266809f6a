// Which failures may be tried again. A failure is final just for what its message
// says; over every run nothing else makes an item fail for good, and after any
// other failure the item is open again and its plan is taken up after a restart.
module DeliveryFailures {
  import opened Prelude
  import opened DeliveryLedger
  import opened DeliveryWorkers
  import opened DeliveryInvariants
  import opened DeliverySteps
  import opened DeliveryTheorems

  // ---------------------------------------------------------- what a message says

  // The letter of a word, in either case.
  predicate Letter(c: char, w: char) {
    c == w || ('a' <= w <= 'z' && c as int + 32 == w as int)
  }

  predicate Says(message: string, word: string, at: int) {
    && 0 <= at <= |message| - |word|
    && forall j :: 0 <= j < |word| ==> Letter(message[at + j], word[j])
  }

  ghost predicate Mentions(message: string, word: string) {
    exists at :: Says(message, word, at)
  }

  // Trying again cannot help: the recipient, the configuration, the permission or
  // the content is at fault.
  ghost predicate Hopeless(message: string) {
    || Mentions(message, "context_token")
    || Mentions(message, "not configured")
    || Mentions(message, "authorization")
    || Mentions(message, "auth")
    || Mentions(message, "permission")
    || Mentions(message, "scope")
    || Mentions(message, "forbidden")
    || Mentions(message, "unauthorized")
    || Mentions(message, "unsupported")
  }

  predicate PartAt(text: string, part: string, at: int) {
    0 <= at <= |text| - |part| && text[at..at + |part|] == part
  }

  lemma {:induction false} ContainsIs(text: string, part: string)
    ensures Contains(text, part) <==> exists at :: PartAt(text, part, at)
  {
    if part <= text {
      assert PartAt(text, part, 0);
    } else if text != "" {
      ContainsIs(text[1..], part);
      if at :| PartAt(text[1..], part, at) {
        assert text[at + 1..at + 1 + |part|] == text[1..][at..at + |part|];
        assert PartAt(text, part, at + 1);
      }
      if at :| PartAt(text, part, at) {
        assert at != 0;
        assert text[1..][at - 1..at - 1 + |part|] == text[at..at + |part|];
        assert PartAt(text[1..], part, at - 1);
      }
    }
  }

  lemma LowerLetter(c: char, w: char)
    requires w == '_' || w == ' ' || 'a' <= w <= 'z'
    ensures AsciiLower([c])[0] == w <==> Letter(c, w)
  {
    if 'A' <= c <= 'Z' {
      assert AsciiLower([c])[0] as int == c as int + 32;
    }
  }

  predicate Lower(word: string) {
    forall j :: 0 <= j < |word| ==> word[j] == '_' || word[j] == ' ' || 'a' <= word[j] <= 'z'
  }

  lemma LowerSays(message: string, word: string, at: int)
    requires Lower(word) && 0 <= at <= |message| - |word|
    ensures AsciiLower(message)[at..at + |word|] == word <==> Says(message, word, at)
  {
    var text := AsciiLower(message);
    forall j | 0 <= j < |word|
      ensures text[at..at + |word|][j] == word[j] <==> Letter(message[at + j], word[j])
    {
      LowerLetter(message[at + j], word[j]);
    }
  }

  lemma ContainsSays(message: string, word: string)
    requires Lower(word)
    ensures Contains(AsciiLower(message), word) <==> Mentions(message, word)
  {
    hide Says;
    var text := AsciiLower(message);
    ContainsIs(text, word);
    forall at
      ensures PartAt(text, word, at) <==> Says(message, word, at)
    {
      if 0 <= at <= |text| - |word| {
        LowerSays(message, word, at);
      } else {
        SaysWithin(message, word, at);
      }
    }
  }

  lemma SaysWithin(message: string, word: string, at: int)
    ensures Says(message, word, at) ==> 0 <= at <= |message| - |word|
  {
  }

  lemma RetryableMeansHope(message: string)
    ensures RetryableMessage(message) <==> !Hopeless(message)
  {
    hide Contains, AsciiLower, Mentions;
    ContainsSays(message, "context_token");
    ContainsSays(message, "not configured");
    ContainsSays(message, "authorization");
    ContainsSays(message, "auth");
    ContainsSays(message, "permission");
    ContainsSays(message, "scope");
    ContainsSays(message, "forbidden");
    ContainsSays(message, "unauthorized");
    ContainsSays(message, "unsupported");
  }

  // --------------------------------------------------------- settling an item

  // The item is being sent under this token, and the lease runs.
  predicate Holds(item: Item, token: string, now: Tick) {
    && item.status.Sending? && item.claimToken == Some(token)
    && item.claimExpiresAt.At? && item.claimExpiresAt.time > now
  }

  lemma HoldsIsActive(c: Catalogue, s: System, w: nat, now: Tick)
    requires Inv(c, s) && AtItem(c, s, w) && Holding(s.workers[w].pc)
    ensures var id, token := IdOf(c, s.workers[w], s.workers[w].pc.i), s.workers[w].pc.hold.token;
            && Has(s.ledger, id)
            && (ClaimFault(s.ledger, id, token, now).None? <==> Holds(Get(s.ledger, id), token, now))
  {
    hide Inv, HoldOk;
    Standing(c, s, w, s.workers[w].pc.i);
  }

  // How a settled item differs from the one that was being sent.
  ghost predicate Recorded(a: Item, b: Item, answer: Answer, prepared: Option<Upload>, fallbackUsed: bool) {
    && b.owner.None? && b.claimExpiresAt.Null? && b.fallbackUsed == fallbackUsed
    && b.claimToken == a.claimToken && b.attempts == a.attempts && b.native == a.native && b.fallback == a.fallback
    && b.materialization == a.materialization && b.materialized == a.materialized && b.planned == a.planned
    && match answer
       case Sent(r) =>
         && b.status.Succeeded? && !b.retryable && b.lastError.None? && b.cachePath.None?
         && b.messageId == (if NonBlank(r.messageId) then r.messageId else a.messageId)
         && b.mediaId == (if NonBlank(r.mediaId) then r.mediaId
                          else if prepared.Some? then Some(prepared.value.mediaId) else a.mediaId)
         && b.clientId == (if NonBlank(r.clientId) then r.clientId
                           else if prepared.Some? && prepared.value.clientId.Some? then prepared.value.clientId
                           else a.clientId)
       case NotSent(f) =>
         && b.status.Failed? && b.lastError == Some(f.message) && b.messageId == a.messageId
         && (b.retryable <==> !Hopeless(f.message))
         && b.cachePath == (if Hopeless(f.message) then None else a.cachePath)
         && b.mediaId == (if prepared.Some? then Some(prepared.value.mediaId) else a.mediaId)
         && b.clientId == (if prepared.Some? && prepared.value.clientId.Some? then prepared.value.clientId
                           else a.clientId)
  }

  lemma SettledAsAnswered(item: Item, answer: Answer, prepared: Option<Upload>, fallbackUsed: bool, now: Tick)
    ensures Recorded(item, SettleItem(item, ItemOutcome(answer, prepared, fallbackUsed), now), answer, prepared,
                     fallbackUsed)
  {
    hide RetryableMessage, Hopeless, Blank;
    if answer.NotSent? {
      RetryableMeansHope(answer.failure.message);
    }
  }

  // The platform's answer decides what becomes of the item, as long as the worker
  // still holds it: sent, open for another try, or failed for good; without the
  // claim nothing is recorded.
  lemma CloseDecides(c: Catalogue, s: System, step: Step)
    requires Inv(c, s) && step.Close? && Enabled(c, s, step)
    ensures var t, me := Apply(c, s, step), s.workers[step.w];
            var pc, id := me.pc, IdOf(c, me, me.pc.i);
            && Has(s.ledger, id) && Has(t.ledger, id)
            && if step.io.None? && Holds(Get(s.ledger, id), pc.hold.token, step.now) then
                 && Recorded(Get(s.ledger, id), Get(t.ledger, id), pc.answer, pc.prepared, pc.fallbackUsed)
                 && t.workers[step.w].pc == if pc.answer.Sent? then Next(pc.i + 1) else Stopped
               else t.ledger == s.ledger && t.workers[step.w].pc == Stopped
  {
    hide Inv, ItemOutcome, SettleItem, Holds, ClaimFault, Recorded;
    var pc := s.workers[step.w].pc;
    var id := IdOf(c, s.workers[step.w], pc.i);
    HoldsIsActive(c, s, step.w, step.now);
    SettledAsAnswered(Get(s.ledger, id), pc.answer, pc.prepared, pc.fallbackUsed, step.now);
  }

  // ------------------------------------------------------ failing for good

  predicate FailedForGood(item: Item) {
    item.status.Failed? && !item.retryable
  }

  // The two ways to fail for good: the platform said it was hopeless, or fetching
  // the item's media was.
  ghost predicate EndsInFailure(c: Catalogue, s: System, step: Step, id: ItemId) {
    && (step.Close? || step.Fetch?) && AtItem(c, s, step.w) && Has(s.ledger, id) && step.io.None?
    && var me := s.workers[step.w];
       && id == IdOf(c, me, me.pc.i)
       && if step.Close? then
            && me.pc.Closing? && Holds(Get(s.ledger, id), me.pc.hold.token, step.now)
            && me.pc.answer.NotSent? && Hopeless(me.pc.answer.failure.message)
          else
            && me.pc.Fetching? && !step.done.ready && !step.done.retryable
            && var m := Get(s.ledger, id).materialization;
               m.Some? && m.value.status.Materializing? && m.value.claimToken == Some(me.pc.token)
  }

  // Failed for good only if it was so before.
  predicate NoNewFailure(s: System, after: Ledger, id: ItemId) {
    Has(after, id) && FailedForGood(Get(after, id)) ==> Has(s.ledger, id) && FailedForGood(Get(s.ledger, id))
  }

  lemma PersistFails(c: Catalogue, s: System, w: nat, now: Tick, io: Option<string>, id: ItemId)
    requires WellFormed(c) && RecordsOk(c, s.ledger) && w in s.workers && Known(c, s.workers[w])
    ensures NoNewFailure(s, ApplyPersist(c, s, w, now, io).ledger, id)
  {
    hide PersistPlan, NewRecord, RecordMatches;
    var t := ApplyPersist(c, s, w, now, io);
    var me := s.workers[w];
    PersistEffect(c, s, me, now);
    if Has(t.ledger, id) && !Has(s.ledger, id) {
      NewRecordIsPending(Plan(c, me), t.ledger[me.delivery], me.fingerprint, now, id.item);
    }
  }

  lemma NewRecordIsPending(d: Delivery, r: Record, fingerprint: string, now: Tick, k: string)
    requires NewRecord(d, r, fingerprint, now) && k in r.items
    ensures r.items[k].status.Pending?
  {
  }

  lemma WalkFails(c: Catalogue, s: System, w: nat, now: Tick, token: string, io: Option<string>, id: ItemId)
    requires w in s.workers && Known(c, s.workers[w]) && s.workers[w].pc.Next?
    requires s.workers[w].pc.i <= |Plan(c, s.workers[w]).items|
    ensures NoNewFailure(s, ApplyWalk(c, s, w, now, token, io).ledger, id)
  {
    hide Unexpired, GrantMaterial, Trimmed;
  }

  lemma FetchFails(c: Catalogue, s: System, step: Step, id: ItemId)
    requires step.Fetch? && Enabled(c, s, step)
    ensures NoNewFailure(s, ApplyFetch(c, s, step.w, step.now, step.done, step.io).ledger, id)
            || EndsInFailure(c, s, step, id)
  {
    hide Unexpired, Trimmed;
  }

  lemma ClaimFails(c: Catalogue, s: System, w: nat, now: Tick, token: string, hasFallback: bool, io: Option<string>,
                   id: ItemId)
    requires AtItem(c, s, w) && s.workers[w].pc.ReadyToClaim?
    ensures NoNewFailure(s, ApplyClaim(c, s, w, now, token, hasFallback, io).ledger, id)
  {
    hide RequestOf, AfterGrant, HoldOn;
    ClaimSends(s.ledger, RequestOf(c, s.workers[w]), token, now, id);
  }

  lemma ClaimSends(l: Ledger, r: ClaimRequest, token: string, now: Tick, id: ItemId)
    ensures var after := ClaimItem(l, r, token, now).0;
            Has(after, id) && FailedForGood(Get(after, id)) ==> Has(l, id) && FailedForGood(Get(l, id))
  {
    hide Unexpired;
  }

  lemma StoreFails(c: Catalogue, s: System, w: nat, now: Tick, stillAllowed: Option<Failure>, io: Option<string>,
                   id: ItemId)
    requires AtItem(c, s, w) && s.workers[w].pc.Uploading?
    ensures NoNewFailure(s, ApplyStore(c, s, w, now, stillAllowed, io).ledger, id)
  {
    hide ClaimFault;
  }

  lemma SettleFails(c: Catalogue, s: System, w: nat, now: Tick, io: Option<string>, id: ItemId)
    requires AtItem(c, s, w) && s.workers[w].pc.Settling?
    ensures NoNewFailure(s, ApplySettle(c, s, w, now, io).ledger, id)
  {
    hide ClaimFault, StageOutcome;
  }

  lemma CloseFails(c: Catalogue, s: System, step: Step, id: ItemId)
    requires Inv(c, s) && step.Close? && Enabled(c, s, step)
    ensures NoNewFailure(s, ApplyClose(c, s, step.w, step.now, step.io).ledger, id) || EndsInFailure(c, s, step, id)
  {
    hide Inv, ItemOutcome, SettleItem, Holds, ClaimFault, Hopeless;
    var pc := s.workers[step.w].pc;
    var mine := IdOf(c, s.workers[step.w], pc.i);
    HoldsIsActive(c, s, step.w, step.now);
    SettledAsAnswered(Get(s.ledger, mine), pc.answer, pc.prepared, pc.fallbackUsed, step.now);
  }

  lemma SweepFails(s: System, now: Tick, ttl: Tick, id: ItemId)
    ensures NoNewFailure(s, ApplySweep(s, now, ttl).ledger, id)
  {
  }

  lemma StepFails(c: Catalogue, s: System, step: Step, id: ItemId)
    requires Inv(c, s) && Enabled(c, s, step)
    ensures NoNewFailure(s, Apply(c, s, step).ledger, id) || EndsInFailure(c, s, step, id)
  {
    hide Inv, NoNewFailure, EndsInFailure, ApplyPersist, ApplyWalk, ApplyFetch, ApplyClaim, ApplyStore, ApplySettle,
         ApplyClose, ApplySweep;
    InvParts(c, s);
    match step
    case Spawn(_, _, _, _) => SameLedgerFails(s, id);
    case Persist(w, now, io) => PersistFails(c, s, w, now, io, id);
    case Walk(w, now, token, io) => WalkFails(c, s, w, now, token, io, id);
    case Fetch(_, _, _, _) => FetchFails(c, s, step, id);
    case Claim(w, now, token, hasFallback, io) => ClaimFails(c, s, w, now, token, hasFallback, io, id);
    case Enter(_, _, _, _) => SameLedgerFails(s, id);
    case Store(w, now, stillAllowed, io) => StoreFails(c, s, w, now, stillAllowed, io, id);
    case Call(_, _) => SameLedgerFails(s, id);
    case Settle(w, now, io) => SettleFails(c, s, w, now, io, id);
    case Close(_, _, _) => CloseFails(c, s, step, id);
    case Sweep(now, ttl) => SweepFails(s, now, ttl, id);
  }

  lemma SameLedgerFails(s: System, id: ItemId)
    ensures NoNewFailure(s, s.ledger, id)
  {
  }

  // In every run an item that has failed for good did so for one of the two
  // reasons, at some earlier step.
  lemma {:induction false} FailuresHaveReasons(c: Catalogue, states: seq<System>, steps: seq<Step>, j: nat, id: ItemId)
    requires WellFormed(c) && IsRun(c, states, steps) && j < |states|
    requires Has(states[j].ledger, id) && FailedForGood(Get(states[j].ledger, id))
    ensures exists t :: 0 <= t < j && EndsInFailure(c, states[t], steps[t], id)
  {
    hide Inv, Apply, Enabled, EndsInFailure;
    RunKeeps(c, states, steps, j - 1);
    StepFails(c, states[j - 1], steps[j - 1], id);
    if !EndsInFailure(c, states[j - 1], steps[j - 1], id) {
      FailuresHaveReasons(c, states, steps, j - 1, id);
    }
  }

  // After any other failure the item is open again, and the plan is taken up after
  // a restart unless another of its items has failed for good.
  lemma FailuresStayOpen(c: Catalogue, states: seq<System>, steps: seq<Step>, i: nat)
    requires WellFormed(c) && IsRun(c, states, steps) && i < |steps| && steps[i].Close? && steps[i].io.None?
    requires AtItem(c, states[i], steps[i].w) && states[i].workers[steps[i].w].pc.Closing?
    requires var me := states[i].workers[steps[i].w];
             && me.pc.answer.NotSent? && !Hopeless(me.pc.answer.failure.message)
             && Has(states[i].ledger, IdOf(c, me, me.pc.i))
             && Holds(Get(states[i].ledger, IdOf(c, me, me.pc.i)), me.pc.hold.token, steps[i].now)
    ensures var me := states[i].workers[steps[i].w];
            var id, l := IdOf(c, me, me.pc.i), states[i + 1].ledger;
            && Has(l, id) && Get(l, id).status.Failed? && Get(l, id).retryable
            && (Listed(l[me.delivery]) <==>
                forall k :: k in l[me.delivery].items ==> !FailedForGood(l[me.delivery].items[k]))
  {
    hide Inv, Apply, Hopeless, Holds, PcOk, InOrder, ItemOk;
    RunKeeps(c, states, steps, i);
    CloseDecides(c, states[i], steps[i]);
    RunKeeps(c, states, steps, i + 1);
    InvParts(c, states[i + 1]);
    var me := states[i].workers[steps[i].w];
    var l := states[i + 1].ledger;
    assert RecordMatches(c[(me.delivery, l[me.delivery].fingerprint)], l[me.delivery]);
    assert IdOf(c, me, me.pc.i).item in l[me.delivery].items;
  }
}
