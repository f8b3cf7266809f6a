// Where the media of a native send come from. The native and the fallback stage
// write one item-level field, from which a later native send may take its media;
// yet over every run a native send carries only media uploaded for the native
// form of that very item, or named by the provider in answer to it.
module DeliveryMedia {
  import opened Prelude
  import opened DeliveryLedger
  import opened DeliveryWorkers
  import opened DeliveryInvariants
  import opened DeliverySteps
  import opened DeliveryTheorems

  type Media = set<(ItemId, string)>

  // The media identifiers that a step brings into being for the native form.
  function Produced(c: Catalogue, s: System, step: Step): Media
    requires Enabled(c, s, step)
  {
    match step
    case Enter(w, _, prepare, _) =>
      if CallsPrepare(s, step) && s.workers[w].pc.stage.Native? && prepare.Uploaded? then
        {(IdOf(c, s.workers[w], s.workers[w].pc.i), Trim(prepare.upload.mediaId))}
      else {}
    case Call(w, answer) =>
      if s.workers[w].pc.stage.Native? && answer.Sent? && answer.response.mediaId.Some? then
        {(IdOf(c, s.workers[w], s.workers[w].pc.i), Trim(answer.response.mediaId.value))}
      else {}
    case _ => {}
  }

  ghost function NativeMedia(c: Catalogue, states: seq<System>, steps: seq<Step>, i: nat): Media
    requires IsRun(c, states, steps) && i < |states|
  {
    if i == 0 then {} else NativeMedia(c, states, steps, i - 1) + Produced(c, states[i - 1], steps[i - 1])
  }

  // --------------------------------------------------------------- invariant

  // A usable identifier is one of these.
  predicate From(m: Option<string>, id: ItemId, media: Media) {
    NonBlank(m) ==> (id, Trim(m.value)) in media
  }

  predicate HasSource(m: Option<string>, id: ItemId, media: Media) {
    m.Some? ==> (id, Trim(m.value)) in media
  }

  // The native stage's own field, and the shared one while no fallback media
  // have been written.
  predicate ItemSourced(item: Item, id: ItemId, media: Media, fallenBack: bool) {
    From(item.native.mediaId, id, media) && (!fallenBack ==> From(item.mediaId, id, media))
  }

  predicate AnswerSourced(answer: Answer, id: ItemId, media: Media) {
    answer.Sent? ==> From(answer.response.mediaId, id, media)
  }

  predicate PcSourced(pc: Pc, id: ItemId, media: Media) {
    match pc
    case Entering(_, h, _) => ItemSourced(h.claim, id, media, !h.clean)
    case Uploading(_, h, name, u) =>
      ItemSourced(h.claim, id, media, !h.clean) && (name.Native? ==> HasSource(Some(u.mediaId), id, media))
    case Calling(_, h, name, prepared) =>
      ItemSourced(h.claim, id, media, !h.clean) && (name.Native? ==> HasSource(MediaOf(prepared), id, media))
    case Settling(_, h, name, prepared, answer) =>
      ItemSourced(h.claim, id, media, !h.clean)
      && (name.Native? ==> From(MediaOf(prepared), id, media) && AnswerSourced(answer, id, media))
    case Closing(_, h, prepared, answer, fallbackUsed) =>
      ItemSourced(h.claim, id, media, !h.clean)
      && (!fallbackUsed ==> From(MediaOf(prepared), id, media) && AnswerSourced(answer, id, media))
    case _ => true
  }

  predicate WorkerSourced(c: Catalogue, me: Worker, media: Media) {
    Holding(me.pc) && Known(c, me) && me.pc.i < |Plan(c, me).items| ==> PcSourced(me.pc, IdOf(c, me, me.pc.i), media)
  }

  ghost predicate LedgerSourced(s: System, media: Media) {
    forall id :: Has(s.ledger, id) ==> ItemSourced(Get(s.ledger, id), id, media, id in s.past.fallbackMedia)
  }

  ghost predicate Sourced(c: Catalogue, s: System, media: Media) {
    LedgerSourced(s, media) && forall w :: w in s.workers ==> WorkerSourced(c, s.workers[w], media)
  }

  lemma MoreMedia(c: Catalogue, me: Worker, media: Media, more: Media)
    requires WorkerSourced(c, me, media) && media <= more
    ensures WorkerSourced(c, me, more)
  {
    hide NonBlank;
  }

  // Only worker `w` moved.
  lemma OthersSourced(c: Catalogue, s: System, t: System, w: nat, media: Media, more: Media)
    requires Sourced(c, s, media) && media <= more && Moves(s, t, w)
    requires LedgerSourced(t, more) && WorkerSourced(c, t.workers[w], more)
    ensures Sourced(c, t, more)
  {
    hide WorkerSourced, LedgerSourced;
    forall v | v in t.workers && v != w ensures WorkerSourced(c, t.workers[v], more) {
      MoreMedia(c, s.workers[v], media, more);
    }
  }

  // ------------------------------------------------------------- steps on items

  // An undisturbed item keeps its media fields.
  lemma UndisturbedSourced(s: System, t: System, media: Media, id: ItemId)
    requires LedgerSourced(s, media) && Has(s.ledger, id) && Undisturbed(s, t.ledger, id)
    requires t.past.fallbackMedia == s.past.fallbackMedia
    ensures ItemSourced(Get(t.ledger, id), id, media, id in t.past.fallbackMedia)
  {
    hide From, LeaseNotRenewed;
    assert ItemSourced(Get(s.ledger, id), id, media, id in s.past.fallbackMedia);
  }

  // A write to one item.
  lemma OneItemSourced(s: System, t: System, id: ItemId, item: Item, media: Media, more: Media)
    requires LedgerSourced(s, media) && media <= more
    requires Has(s.ledger, id) && t.ledger == Put(s.ledger, id, item)
    requires s.past.fallbackMedia <= t.past.fallbackMedia
    requires ItemSourced(item, id, more, id in t.past.fallbackMedia)
    ensures LedgerSourced(t, more)
  {
    hide NonBlank;
    forall other | Has(t.ledger, other)
      ensures ItemSourced(Get(t.ledger, other), other, more, other in t.past.fallbackMedia)
    {
      if other != id {
        assert Has(s.ledger, other) && Get(t.ledger, other) == Get(s.ledger, other);
        assert ItemSourced(Get(s.ledger, other), other, media, other in s.past.fallbackMedia);
      }
    }
  }

  lemma SameLedgerSourced(s: System, t: System, media: Media, more: Media)
    requires LedgerSourced(s, media) && media <= more && t.ledger == s.ledger
    requires s.past.fallbackMedia <= t.past.fallbackMedia
    ensures LedgerSourced(t, more)
  {
    hide NonBlank;
    forall id | Has(t.ledger, id)
      ensures ItemSourced(Get(t.ledger, id), id, more, id in t.past.fallbackMedia)
    {
      assert ItemSourced(Get(s.ledger, id), id, media, id in s.past.fallbackMedia);
    }
  }

  lemma StoreSources(item: Item, id: ItemId, name: StageName, u: Upload, now: Tick, media: Media, fallenBack: bool)
    requires ItemSourced(item, id, media, fallenBack)
    requires name.Native? ==> From(Some(u.mediaId), id, media)
    ensures ItemSourced(StoreUpload(item, name, u, now), id, media, fallenBack || name.Fallback?)
  {
    hide NonBlank;
  }

  lemma SettleSources(item: Item, id: ItemId, name: StageName, answer: Answer, prepared: Option<Upload>, media: Media,
                      fallenBack: bool)
    requires ItemSourced(item, id, media, fallenBack)
    requires name.Native? ==> From(MediaOf(prepared), id, media) && AnswerSourced(answer, id, media)
    ensures ItemSourced(SettleStage(item, name, StageOutcome(answer, prepared)), id, media, fallenBack)
  {
    hide NonBlank;
  }

  lemma CloseSources(item: Item, id: ItemId, answer: Answer, prepared: Option<Upload>, fallbackUsed: bool, now: Tick,
                     media: Media, fallenBack: bool)
    requires ItemSourced(item, id, media, fallenBack)
    requires !fallbackUsed ==> From(MediaOf(prepared), id, media) && AnswerSourced(answer, id, media)
    ensures ItemSourced(SettleItem(item, ItemOutcome(answer, prepared, fallbackUsed), now), id, media,
                        fallenBack || fallbackUsed)
  {
    hide Blank;
  }

  // What a claim snapshot offers a native send.
  lemma PreparedSourced(h: Hold, id: ItemId, media: Media)
    requires ItemSourced(h.claim, id, media, !h.clean) && h.clean
    ensures HasSource(MediaOf(LoadPrepared(h.claim, Native)), id, media)
  {
    if NonBlank(h.claim.native.mediaId) {
      TrimIsStable(h.claim.native.mediaId.value);
    } else if NonBlank(h.claim.mediaId) {
      TrimIsStable(h.claim.mediaId.value);
    }
  }

  lemma EnterSources(i: nat, h: Hold, stage: StageName, allowed: Option<Failure>, prepare: PrepareAnswer,
                     stillAllowed: Option<Failure>, id: ItemId, media: Media, more: Media)
    requires ItemSourced(h.claim, id, media, !h.clean) && (stage.Native? ==> h.clean) && media <= more
    requires stage.Native? && allowed.None? && LoadPrepared(h.claim, Native).None? && prepare.Uploaded? ==>
               (id, Trim(prepare.upload.mediaId)) in more
    ensures PcSourced(EnterPc(i, h, stage, allowed, prepare, stillAllowed), id, more)
  {
    hide LoadPrepared;
    if stage.Native? {
      PreparedSourced(h, id, media);
    }
  }

  // ----------------------------------------------------------------- every step

  // Steps that leave every item's media alone and hold no claim afterwards.
  lemma QuietSources(c: Catalogue, s: System, t: System, w: nat, media: Media)
    requires Sourced(c, s, media) && Moves(s, t, w) && !Holding(t.workers[w].pc)
    requires t.past.fallbackMedia == s.past.fallbackMedia
    requires forall id :: Has(s.ledger, id) ==> Undisturbed(s, t.ledger, id)
    requires forall id :: Has(t.ledger, id) && !Has(s.ledger, id) ==>
                            Get(t.ledger, id).mediaId.None? && Get(t.ledger, id).native.mediaId.None?
    ensures Sourced(c, t, media)
  {
    hide Undisturbed, From, Moves;
    forall id | Has(t.ledger, id)
      ensures ItemSourced(Get(t.ledger, id), id, media, id in t.past.fallbackMedia)
    {
      if Has(s.ledger, id) {
        UndisturbedSourced(s, t, media, id);
      } else {
        NothingFrom(id, media);
      }
    }
    OthersSourced(c, s, t, w, media, media);
  }

  lemma NothingFrom(id: ItemId, media: Media)
    ensures From(None, id, media)
  {
  }

  lemma PersistSources(c: Catalogue, s: System, w: nat, now: Tick, io: Option<string>, media: Media)
    requires Inv(c, s) && Sourced(c, s, media) && w in s.workers && Known(c, s.workers[w]) && s.workers[w].pc.Idle?
    ensures Sourced(c, ApplyPersist(c, s, w, now, io), media)
  {
    hide Undisturbed, Sourced, PersistPlan, RecordMatches, InOrder, ItemOk, NewRecord;
    var t := ApplyPersist(c, s, w, now, io);
    var me := s.workers[w];
    InvParts(c, s);
    PersistEffect(c, s, me, now);
    forall id | Has(s.ledger, id) ensures Undisturbed(s, t.ledger, id) { PersistLeavesAlone(c, s, w, now, io, id); }
    forall id | Has(t.ledger, id) && !Has(s.ledger, id)
      ensures Get(t.ledger, id).mediaId.None? && Get(t.ledger, id).native.mediaId.None?
    {
      NewRecordIsBlank(Plan(c, me), t.ledger[me.delivery], me.fingerprint, now, id.item);
    }
    QuietSources(c, s, t, w, media);
  }

  lemma NewRecordIsBlank(d: Delivery, r: Record, fingerprint: string, now: Tick, k: string)
    requires NewRecord(d, r, fingerprint, now) && k in r.items
    ensures r.items[k].mediaId.None? && r.items[k].native.mediaId.None?
  {
  }

  lemma WalkSources(c: Catalogue, s: System, w: nat, now: Tick, token: string, io: Option<string>, media: Media)
    requires Sourced(c, s, media) && w in s.workers && Known(c, s.workers[w]) && s.workers[w].pc.Next?
    requires s.workers[w].pc.i <= |Plan(c, s.workers[w]).items| && Fresh(s, token)
    ensures Sourced(c, ApplyWalk(c, s, w, now, token, io), media)
  {
    hide Undisturbed, Sourced;
    var t := ApplyWalk(c, s, w, now, token, io);
    forall id | Has(s.ledger, id) ensures Undisturbed(s, t.ledger, id) {
      WalkLeavesAlone(c, s, w, now, token, io, id);
    }
    QuietSources(c, s, t, w, media);
  }

  lemma FetchSources(c: Catalogue, s: System, w: nat, now: Tick, done: MaterialCompletion, io: Option<string>,
                     media: Media)
    requires Sourced(c, s, media) && AtItem(c, s, w) && s.workers[w].pc.Fetching?
    ensures Sourced(c, ApplyFetch(c, s, w, now, done, io), media)
  {
    hide Undisturbed, Sourced;
    var t := ApplyFetch(c, s, w, now, done, io);
    forall id | Has(s.ledger, id) ensures Undisturbed(s, t.ledger, id) { FetchLeavesAlone(c, s, w, now, done, io, id); }
    QuietSources(c, s, t, w, media);
  }

  lemma SweepSources(c: Catalogue, s: System, now: Tick, ttl: Tick, media: Media)
    requires Sourced(c, s, media)
    ensures Sourced(c, ApplySweep(s, now, ttl), media)
  {
    hide Undisturbed, ItemSourced, WorkerSourced, ApplySweep;
    var t := ApplySweep(s, now, ttl);
    SweepShape(s, now, ttl);
    forall id | Has(t.ledger, id)
      ensures ItemSourced(Get(t.ledger, id), id, media, id in t.past.fallbackMedia)
    {
      SweepLeavesAlone(s, now, ttl, id);
      UndisturbedSourced(s, t, media, id);
    }
  }

  lemma ClaimSources(c: Catalogue, s: System, w: nat, now: Tick, token: string, hasFallback: bool, io: Option<string>,
                     media: Media)
    requires Inv(c, s) && Sourced(c, s, media) && AtItem(c, s, w) && s.workers[w].pc.ReadyToClaim? && Fresh(s, token)
    ensures Sourced(c, ApplyClaim(c, s, w, now, token, hasFallback, io), media)
  {
    hide Inv, WorkerSourced, LedgerSourced, PcSourced, ItemSourced, ClaimItem, ClaimAnswer, AfterGrant, HoldOn, ItemOk;
    var t := ApplyClaim(c, s, w, now, token, hasFallback, io);
    var me := s.workers[w];
    Standing(c, s, w, me.pc.i);
    var id := IdOf(c, me, me.pc.i);
    var r := RequestOf(c, me);
    var reply := ClaimAnswer(Get(s.ledger, id), r, token, now);
    if io.None? && reply.Claimed? {
      ClaimIsPut(s.ledger, r, token, now);
      GrantSources(s, id, r, token, now, media);
      OneItemSourced(s, t, id, reply.item, media, media);
      HeldItem(s.past, id, token, reply.item, hasFallback);
      GrantedSources(me.pc.i, HoldOn(s.past, id, token, reply.item, hasFallback), id, media);
      MovedSourced(c, s, t, w, media);
    } else {
      assert Get(s.ledger, id).(fingerprint := Some(me.fingerprint)) == Get(s.ledger, id);
      RefusedClaim(c, s, w, now, token, hasFallback, io);
      SameLedgerSourced(s, t, media, media);
      NotHolding(c, t.workers[w], media);
    }
    OthersSourced(c, s, t, w, media, media);
  }

  lemma GrantSources(s: System, id: ItemId, r: ClaimRequest, token: string, now: Tick, media: Media)
    requires LedgerSourced(s, media) && Has(s.ledger, id) && ClaimAnswer(Get(s.ledger, id), r, token, now).Claimed?
    ensures ItemSourced(ClaimAnswer(Get(s.ledger, id), r, token, now).item, id, media, id in s.past.fallbackMedia)
  {
    hide From;
    assert ItemSourced(Get(s.ledger, id), id, media, id in s.past.fallbackMedia);
  }

  lemma GrantedSources(i: nat, h: Hold, id: ItemId, media: Media)
    requires ItemSourced(h.claim, id, media, !h.clean)
    ensures var pc := AfterGrant(i, h);
            Holding(pc) && pc.i == i && PcSourced(pc, id, media)
  {
    hide ItemSourced, From;
    NothingFrom(id, media);
  }

  lemma HeldItem(past: History, id: ItemId, token: string, item: Item, hasFallback: bool)
    ensures var h := HoldOn(past, id, token, item, hasFallback);
            h.claim == item && (!h.clean <==> id in past.fallbackMedia)
  {
  }

  lemma RefusedClaim(c: Catalogue, s: System, w: nat, now: Tick, token: string, hasFallback: bool, io: Option<string>)
    requires AtItem(c, s, w) && s.workers[w].pc.ReadyToClaim?
    requires var id := IdOf(c, s.workers[w], s.workers[w].pc.i);
             && Has(s.ledger, id) && s.ledger[id.delivery].fingerprint == s.workers[w].fingerprint
             && Get(s.ledger, id).(fingerprint := Some(s.workers[w].fingerprint)) == Get(s.ledger, id)
             && (io.Some? || !ClaimAnswer(Get(s.ledger, id), RequestOf(c, s.workers[w]), token, now).Claimed?)
    ensures var t := ApplyClaim(c, s, w, now, token, hasFallback, io);
            t.ledger == s.ledger && t.past == s.past && !Holding(t.workers[w].pc)
  {
  }

  lemma NotHolding(c: Catalogue, me: Worker, media: Media)
    requires !Holding(me.pc)
    ensures WorkerSourced(c, me, media)
  {
  }

  lemma HeldSourced(c: Catalogue, s: System, w: nat, media: Media)
    requires Sourced(c, s, media) && AtItem(c, s, w) && Holding(s.workers[w].pc)
    ensures PcSourced(s.workers[w].pc, IdOf(c, s.workers[w], s.workers[w].pc.i), media)
  {
    hide PcSourced, LedgerSourced;
    assert WorkerSourced(c, s.workers[w], media);
  }

  lemma MovedSourced(c: Catalogue, s: System, t: System, w: nat, media: Media)
    requires AtItem(c, s, w) && Moves(s, t, w)
    requires Holding(t.workers[w].pc) ==>
               t.workers[w].pc.i == s.workers[w].pc.i
               && PcSourced(t.workers[w].pc, IdOf(c, s.workers[w], s.workers[w].pc.i), media)
    ensures WorkerSourced(c, t.workers[w], media)
  {
    hide PcSourced;
  }

  // A native stage is entered only under a claim granted before the fallback had
  // written any media.
  lemma NativeIsClean(c: Catalogue, s: System, w: nat)
    requires Inv(c, s) && AtItem(c, s, w) && s.workers[w].pc.Entering? && s.workers[w].pc.stage.Native?
    ensures s.workers[w].pc.hold.clean
  {
    hide Inv, ItemOk, HoldOk;
    Standing(c, s, w, s.workers[w].pc.i);
  }

  lemma EnterStepSources(c: Catalogue, s: System, step: Step, media: Media)
    requires Inv(c, s) && Sourced(c, s, media) && step.Enter? && Enabled(c, s, step)
    ensures Sourced(c, Apply(c, s, step), media + Produced(c, s, step))
  {
    hide Inv, Sourced, PcSourced, LoadPrepared, EnterPc;
    var t := Apply(c, s, step);
    var more := media + Produced(c, s, step);
    var w, pc := step.w, s.workers[step.w].pc;
    HeldSourced(c, s, w, media);
    EnteringClaim(pc, IdOf(c, s.workers[w], pc.i), media);
    if pc.stage.Native? {
      NativeIsClean(c, s, w);
    }
    EnterSources(pc.i, pc.hold, pc.stage, step.allowed, step.prepare, step.stillAllowed, IdOf(c, s.workers[w], pc.i),
                 media, more);
    EnterIndex(pc.i, pc.hold, pc.stage, step.allowed, step.prepare, step.stillAllowed);
    MovedSourced(c, s, t, w, more);
    LedgerPart(c, s, media);
    SameLedgerSourced(s, t, media, more);
    OthersSourced(c, s, t, w, media, more);
  }

  lemma EnterIndex(i: nat, h: Hold, stage: StageName, allowed: Option<Failure>, prepare: PrepareAnswer,
                   stillAllowed: Option<Failure>)
    ensures var pc := EnterPc(i, h, stage, allowed, prepare, stillAllowed);
            Holding(pc) && pc.i == i
  {
  }

  lemma EnteringClaim(pc: Pc, id: ItemId, media: Media)
    requires PcSourced(pc, id, media) && Holding(pc)
    ensures ItemSourced(pc.hold.claim, id, media, !pc.hold.clean)
  {
    hide ItemSourced, From;
  }

  lemma LedgerPart(c: Catalogue, s: System, media: Media)
    requires Sourced(c, s, media)
    ensures LedgerSourced(s, media)
  {
  }

  lemma AnsweredSources(i: nat, h: Hold, name: StageName, prepared: Option<Upload>, answer: Answer, id: ItemId,
                        media: Media, more: Media)
    requires PcSourced(Calling(i, h, name, prepared), id, media) && media <= more
    requires name.Native? && answer.Sent? && answer.response.mediaId.Some? ==>
               (id, Trim(answer.response.mediaId.value)) in more
    ensures PcSourced(Settling(i, h, name, prepared, answer), id, more)
  {
    hide Blank;
  }

  lemma CallSources(c: Catalogue, s: System, step: Step, media: Media)
    requires Sourced(c, s, media) && step.Call? && Enabled(c, s, step)
    ensures Sourced(c, Apply(c, s, step), media + Produced(c, s, step))
  {
    hide Sourced, PcSourced;
    var t := Apply(c, s, step);
    var more := media + Produced(c, s, step);
    var w, pc := step.w, s.workers[step.w].pc;
    HeldSourced(c, s, w, media);
    AnsweredSources(pc.i, pc.hold, pc.stage, pc.prepared, step.answer, IdOf(c, s.workers[w], pc.i), media, more);
    MovedSourced(c, s, t, w, more);
    LedgerPart(c, s, media);
    SameLedgerSourced(s, t, media, more);
    OthersSourced(c, s, t, w, media, more);
  }

  // What the holder goes on with after recording its upload, or failing to.
  lemma StoredSources(c: Catalogue, s: System, w: nat, now: Tick, stillAllowed: Option<Failure>, io: Option<string>,
                      media: Media)
    requires AtItem(c, s, w) && s.workers[w].pc.Uploading?
    requires PcSourced(s.workers[w].pc, IdOf(c, s.workers[w], s.workers[w].pc.i), media)
    ensures WorkerSourced(c, ApplyStore(c, s, w, now, stillAllowed, io).workers[w], media)
  {
    hide ItemSourced, StoreUpload, RecordUpload, Blank, NoteUpload;
  }

  lemma StoreStepSources(c: Catalogue, s: System, w: nat, now: Tick, stillAllowed: Option<Failure>, io: Option<string>,
                         media: Media)
    requires Inv(c, s) && Sourced(c, s, media) && AtItem(c, s, w) && s.workers[w].pc.Uploading?
    ensures Sourced(c, ApplyStore(c, s, w, now, stillAllowed, io), media)
  {
    hide Inv, Sourced, ItemSourced, WorkerSourced, LedgerSourced, StoreUpload, NonBlank, ItemOk, ItemMatches, AtItemOk;
    var t := ApplyStore(c, s, w, now, stillAllowed, io);
    var me, pc := s.workers[w], s.workers[w].pc;
    var id := IdOf(c, me, pc.i);
    Standing(c, s, w, pc.i);
    HeldSourced(c, s, w, media);
    LedgerPart(c, s, media);
    StoredSources(c, s, w, now, stillAllowed, io, media);
    if io.None? && ClaimFault(s.ledger, id, pc.hold.token, now).None? {
      var after := StoreUpload(Get(s.ledger, id), pc.stage, pc.upload, now);
      ItemPart(s, id, media);
      StoreSources(Get(s.ledger, id), id, pc.stage, pc.upload, now, media, id in s.past.fallbackMedia);
      LaxSourced(after, id, media, id in s.past.fallbackMedia || pc.stage.Fallback?, id in t.past.fallbackMedia);
      OneItemSourced(s, t, id, after, media, media);
    } else {
      SameLedgerSourced(s, t, media, media);
    }
    OthersSourced(c, s, t, w, media, media);
  }

  lemma ItemPart(s: System, id: ItemId, media: Media)
    requires LedgerSourced(s, media) && Has(s.ledger, id)
    ensures ItemSourced(Get(s.ledger, id), id, media, id in s.past.fallbackMedia)
  {
    hide ItemSourced;
  }

  lemma LaxSourced(item: Item, id: ItemId, media: Media, before: bool, after: bool)
    requires ItemSourced(item, id, media, before) && (before ==> after)
    ensures ItemSourced(item, id, media, after)
  {
    hide From;
  }

  lemma SettleStepSources(c: Catalogue, s: System, w: nat, now: Tick, io: Option<string>, media: Media)
    requires Inv(c, s) && Sourced(c, s, media) && AtItem(c, s, w) && s.workers[w].pc.Settling?
    ensures Sourced(c, ApplySettle(c, s, w, now, io), media)
  {
    hide Inv, Sourced, ItemSourced, SettleStage, StageOutcome, NonBlank, ItemOk;
    var t := ApplySettle(c, s, w, now, io);
    var me, pc := s.workers[w], s.workers[w].pc;
    var id := IdOf(c, me, pc.i);
    Standing(c, s, w, pc.i);
    HeldSourced(c, s, w, media);
    LedgerPart(c, s, media);
    MovedSourced(c, s, t, w, media);
    if io.None? && ClaimFault(s.ledger, id, pc.hold.token, now).None? {
      ItemPart(s, id, media);
      SettleSources(Get(s.ledger, id), id, pc.stage, pc.answer, pc.prepared, media, id in s.past.fallbackMedia);
      OneItemSourced(s, t, id, SettleStage(Get(s.ledger, id), pc.stage, StageOutcome(pc.answer, pc.prepared)), media,
                     media);
    } else {
      SameLedgerSourced(s, t, media, media);
    }
    OthersSourced(c, s, t, w, media, media);
  }

  lemma CloseStepSources(c: Catalogue, s: System, w: nat, now: Tick, io: Option<string>, media: Media)
    requires Inv(c, s) && Sourced(c, s, media) && AtItem(c, s, w) && s.workers[w].pc.Closing?
    ensures Sourced(c, ApplyClose(c, s, w, now, io), media)
  {
    hide Inv, Sourced, ItemSourced, SettleItem, ItemOutcome, NonBlank, ItemOk;
    var t := ApplyClose(c, s, w, now, io);
    var me, pc := s.workers[w], s.workers[w].pc;
    var id := IdOf(c, me, pc.i);
    Standing(c, s, w, pc.i);
    HeldSourced(c, s, w, media);
    LedgerPart(c, s, media);
    MovedSourced(c, s, t, w, media);
    if io.None? && ClaimFault(s.ledger, id, pc.hold.token, now).None? {
      ItemPart(s, id, media);
      CloseSources(Get(s.ledger, id), id, pc.answer, pc.prepared, pc.fallbackUsed, now, media,
                   id in s.past.fallbackMedia);
      LaxSourced(SettleItem(Get(s.ledger, id), ItemOutcome(pc.answer, pc.prepared, pc.fallbackUsed), now), id, media,
                 id in s.past.fallbackMedia || pc.fallbackUsed, id in t.past.fallbackMedia);
      OneItemSourced(s, t, id, SettleItem(Get(s.ledger, id), ItemOutcome(pc.answer, pc.prepared, pc.fallbackUsed), now),
                     media, media);
    } else {
      SameLedgerSourced(s, t, media, media);
    }
    OthersSourced(c, s, t, w, media, media);
  }

  lemma SpawnSources(c: Catalogue, s: System, step: Step, media: Media)
    requires Sourced(c, s, media) && step.Spawn? && Enabled(c, s, step)
    ensures Sourced(c, Apply(c, s, step), media)
  {
    hide PcSourced, ItemSourced;
  }

  lemma StepSources(c: Catalogue, s: System, step: Step, media: Media)
    requires Inv(c, s) && Sourced(c, s, media) && Enabled(c, s, step)
    ensures Sourced(c, Apply(c, s, step), media + Produced(c, s, step))
  {
    hide Inv, Sourced, ApplyPersist, ApplyWalk, ApplyFetch, ApplyClaim, ApplyEnter, ApplyStore, ApplySettle, ApplyClose,
         ApplySweep;
    if !step.Enter? && !step.Call? {
      assert media + Produced(c, s, step) == media;
    }
    match step
    case Spawn(_, _, _, _) => SpawnSources(c, s, step, media);
    case Persist(w, now, io) => PersistSources(c, s, w, now, io, media);
    case Walk(w, now, token, io) => WalkSources(c, s, w, now, token, io, media);
    case Fetch(w, now, done, io) => FetchSources(c, s, w, now, done, io, media);
    case Claim(w, now, token, hasFallback, io) => ClaimSources(c, s, w, now, token, hasFallback, io, media);
    case Enter(_, _, _, _) => EnterStepSources(c, s, step, media);
    case Store(w, now, stillAllowed, io) => StoreStepSources(c, s, w, now, stillAllowed, io, media);
    case Call(_, _) => CallSources(c, s, step, media);
    case Settle(w, now, io) => SettleStepSources(c, s, w, now, io, media);
    case Close(w, now, io) => CloseStepSources(c, s, w, now, io, media);
    case Sweep(now, ttl) => SweepSources(c, s, now, ttl, media);
  }

  lemma {:induction false} RunSources(c: Catalogue, states: seq<System>, steps: seq<Step>, i: nat)
    requires WellFormed(c) && IsRun(c, states, steps) && i < |states|
    ensures Sourced(c, states[i], NativeMedia(c, states, steps, i))
  {
    hide Apply, Enabled, Inv, Produced;
    if i > 0 {
      RunSources(c, states, steps, i - 1);
      RunKeeps(c, states, steps, i - 1);
      StepSources(c, states[i - 1], steps[i - 1], NativeMedia(c, states, steps, i - 1));
    }
  }

  lemma {:induction false} ProducedEarlier(c: Catalogue, states: seq<System>, steps: seq<Step>, i: nat, id: ItemId,
                                           m: string)
    requires IsRun(c, states, steps) && i < |states| && (id, m) in NativeMedia(c, states, steps, i)
    ensures exists j :: 0 <= j < i && (id, m) in Produced(c, states[j], steps[j])
  {
    hide Enabled, Apply, Produced;
    if (id, m) !in Produced(c, states[i - 1], steps[i - 1]) {
      ProducedEarlier(c, states, steps, i - 1, id, m);
    }
  }

  // Whatever media a native send carries were uploaded for the native form of
  // this item, or named by the provider in answer to it, at some earlier step.
  lemma NativeSendsNativeMedia(c: Catalogue, states: seq<System>, steps: seq<Step>, i: nat, w: nat)
    requires WellFormed(c) && IsRun(c, states, steps) && i < |states|
    requires AtItem(c, states[i], w) && states[i].workers[w].pc.Calling? && states[i].workers[w].pc.stage.Native?
    ensures var me := states[i].workers[w];
            me.pc.prepared.Some? ==>
              exists j :: 0 <= j < i && (IdOf(c, me, me.pc.i), Trim(me.pc.prepared.value.mediaId))
                                        in Produced(c, states[j], steps[j])
  {
    hide Apply, Enabled, Inv, NativeMedia, Sourced, Produced;
    RunSources(c, states, steps, i);
    HeldSourced(c, states[i], w, NativeMedia(c, states, steps, i));
    var me := states[i].workers[w];
    if me.pc.prepared.Some? {
      ProducedEarlier(c, states, steps, i, IdOf(c, me, me.pc.i), Trim(me.pc.prepared.value.mediaId));
    }
  }
}
