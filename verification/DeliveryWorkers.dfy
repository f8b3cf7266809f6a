// The gateway processes that work through delivery plans on one shared ledger.
//
// A worker is a program counter plus the claim snapshot it was granted; one
// step is one locked ledger operation, or one stretch of provider calls
// between two such operations. A crash is a worker that takes no further step.
// Provider and authorization answers, lease lengths, clock readings and
// failing ledger writes are arbitrary.
module DeliveryWorkers {
  import opened Prelude
  import opened DeliveryLedger

  // ------------------------------------------------------- provider answers

  datatype Failure = Failure(code: string, message: string)

  function Infrastructure(message: string): Failure {
    Failure("INFRASTRUCTURE_ERROR", message)
  }

  predicate ShouldFallBack(f: Failure) {
    f.code == "UNSUPPORTED_NATIVE_VIDEO" || f.code == "NATIVE_MEDIA_PRE_SEND_FAILED"
  }

  // The retry flag of `map_delivery_failure`.
  predicate RetryableMessage(message: string) {
    var lower := AsciiLower(message);
    && !Contains(lower, "context_token")
    && !Contains(lower, "not configured")
    && !Contains(lower, "authorization")
    && !Contains(lower, "auth")
    && !Contains(lower, "permission")
    && !Contains(lower, "scope")
    && !Contains(lower, "forbidden")
    && !Contains(lower, "unauthorized")
    && !Contains(lower, "unsupported")
  }

  // The three identifiers read from a provider's answer, each present when the
  // answer holds a string in one of its accepted positions.
  datatype Response = Response(mediaId: Option<string>, clientId: Option<string>, messageId: Option<string>)

  datatype Answer = Sent(response: Response) | NotSent(failure: Failure)

  datatype PrepareAnswer = Uploaded(upload: Upload) | NothingToUpload | PrepareFailed(failure: Failure)

  function Filled(s: Option<string>): Option<string> {
    if NonBlank(s) then s else None
  }

  function MediaOf(u: Option<Upload>): Option<string> {
    if u.Some? then Some(u.value.mediaId) else None
  }

  function ClientOf(u: Option<Upload>): Option<string> {
    if u.Some? then u.value.clientId else None
  }

  // What a claim snapshot offers for reuse: the stage's own upload, and for the
  // native stage also the item-level one.
  function LoadPrepared(claim: Item, name: StageName): (r: Option<Upload>)
    ensures r.Some? ==> !Blank(r.value.mediaId)
    ensures r.Some? <==> NonBlank(claim.StageOf(name).mediaId) || (name.Native? && NonBlank(claim.mediaId))
  {
    var stage := claim.StageOf(name);
    if NonBlank(stage.mediaId) then
      TrimIsStable(stage.mediaId.value);
      Some(Upload(Trim(stage.mediaId.value), Trimmed(stage.clientId), stage.mediaState))
    else if name.Native? && NonBlank(claim.mediaId) then
      TrimIsStable(claim.mediaId.value);
      Some(Upload(Trim(claim.mediaId.value), Trimmed(claim.clientId), claim.mediaState))
    else None
  }

  function StageOutcome(answer: Answer, prepared: Option<Upload>): StageCompletion {
    match answer
    case Sent(r) =>
      StageCompletion(Delivered, Or(r.mediaId, MediaOf(prepared)), Or(r.clientId, ClientOf(prepared)),
                      Filled(r.messageId), false, None)
    case NotSent(f) =>
      StageCompletion(if ShouldFallBack(f) then Unsupported else Refused, MediaOf(prepared), ClientOf(prepared),
                      None, !ShouldFallBack(f) && RetryableMessage(f.message), Some(f.message))
  }

  function ItemOutcome(answer: Answer, prepared: Option<Upload>, fallbackUsed: bool): ItemCompletion {
    match answer
    case Sent(r) =>
      ItemCompletion(Succeeded, Or(Filled(r.mediaId), MediaOf(prepared)), Or(Filled(r.clientId), ClientOf(prepared)),
                     Filled(r.messageId), false, None, fallbackUsed)
    case NotSent(f) =>
      ItemCompletion(Failed, MediaOf(prepared), ClientOf(prepared), None, RetryableMessage(f.message),
                     Some(f.message), fallbackUsed)
  }

  // ----------------------------------------------------------- the processes

  datatype Delivery = Delivery(outbound: Outbound, items: seq<PlanItem>, leaseSeconds: nat)

  // One delivery key and request fingerprint determine one plan.
  type Catalogue = map<(string, string), Delivery>

  ghost predicate WellFormed(c: Catalogue) {
    forall k :: k in c ==> c[k].items != [] && DistinctKeys(c[k].items)
  }

  predicate DistinctKeys(items: seq<PlanItem>) {
    forall i, j :: 0 <= i < j < |items| ==> items[i].key != items[j].key
  }

  // A granted send claim. `view`, `late` and `clean` are history: the snapshot
  // with the holder's own committed writes, the stages whose upload was on
  // record at the grant, and whether the fallback had never written media then.
  datatype Hold = Hold(token: string, claim: Item, view: Item, late: set<StageName>, clean: bool, hasFallback: bool)

  datatype Pc =
    | Idle
    | Next(i: nat)
    | Fetching(i: nat, token: string)
    | ReadyToClaim(i: nat, path: Option<string>)
    | Entering(i: nat, hold: Hold, stage: StageName)
    | Uploading(i: nat, hold: Hold, stage: StageName, upload: Upload)
    | Calling(i: nat, hold: Hold, stage: StageName, prepared: Option<Upload>)
    | Settling(i: nat, hold: Hold, stage: StageName, prepared: Option<Upload>, answer: Answer)
    | Closing(i: nat, hold: Hold, prepared: Option<Upload>, answer: Answer, fallbackUsed: bool)
    | Stopped

  predicate Holding(pc: Pc) {
    pc.Entering? || pc.Uploading? || pc.Calling? || pc.Settling? || pc.Closing?
  }

  datatype Worker = Worker(delivery: string, fingerprint: string, owner: string, pc: Pc)

  // What the run has done so far.
  datatype History = History(
    claimed: set<ItemId>,
    uploads: set<(ItemId, StageName)>,
    blankAnswers: set<ItemId>,
    fallbackMedia: set<ItemId>,
    expired: set<ItemId>)

  datatype System = System(
    clock: Tick,
    ledger: Ledger,
    workers: map<nat, Worker>,
    used: set<string>,
    past: History)

  const START := System(0, map[], map[], {}, History({}, {}, {}, {}, {}))

  datatype Step =
    | Spawn(w: nat, delivery: string, fingerprint: string, owner: string)
    | Persist(w: nat, now: Tick, io: Option<string>)
    | Walk(w: nat, now: Tick, token: string, io: Option<string>)
    | Fetch(w: nat, now: Tick, done: MaterialCompletion, io: Option<string>)
    | Claim(w: nat, now: Tick, token: string, hasFallback: bool, io: Option<string>)
    | Enter(w: nat, allowed: Option<Failure>, prepare: PrepareAnswer, stillAllowed: Option<Failure>)
    | Store(w: nat, now: Tick, stillAllowed: Option<Failure>, io: Option<string>)
    | Call(w: nat, answer: Answer)
    | Settle(w: nat, now: Tick, io: Option<string>)
    | Close(w: nat, now: Tick, io: Option<string>)
    | Sweep(now: Tick, ttl: Tick)

  predicate Known(c: Catalogue, w: Worker) {
    (w.delivery, w.fingerprint) in c
  }

  function Plan(c: Catalogue, w: Worker): Delivery
    requires Known(c, w)
  {
    c[(w.delivery, w.fingerprint)]
  }

  function IdOf(c: Catalogue, w: Worker, i: nat): ItemId
    requires Known(c, w) && i < |Plan(c, w).items|
  {
    ItemId(w.delivery, Plan(c, w).items[i].key)
  }

  predicate Fresh(s: System, token: string) {
    token != "" && token !in s.used
  }

  predicate Timely(s: System, step: Step) {
    step.Spawn? || step.Enter? || step.Call? || s.clock <= step.now
  }

  // Program counter and item index fit the step.
  predicate AtItem(c: Catalogue, s: System, w: nat) {
    && w in s.workers
    && Known(c, s.workers[w])
    && (s.workers[w].pc.Fetching? || s.workers[w].pc.ReadyToClaim? || Holding(s.workers[w].pc))
    && s.workers[w].pc.i < |Plan(c, s.workers[w]).items|
  }

  predicate Enabled(c: Catalogue, s: System, step: Step) {
    && Timely(s, step)
    && match step
       case Spawn(w, delivery, fingerprint, _) => w !in s.workers && (delivery, fingerprint) in c
       case Persist(w, _, _) => w in s.workers && Known(c, s.workers[w]) && s.workers[w].pc.Idle?
       case Walk(w, _, token, _) =>
         && w in s.workers && Known(c, s.workers[w])
         && s.workers[w].pc.Next? && s.workers[w].pc.i <= |Plan(c, s.workers[w]).items|
         && Fresh(s, token)
       case Fetch(w, _, done, _) =>
         // a ready completion carries the payload, its cache path and a true retry flag
         && AtItem(c, s, w) && s.workers[w].pc.Fetching?
         && if done.ready then done.outbound.Some? && done.cachePath == done.outbound.value.path && done.cachePath.Some?
                               && done.retryable
            else done.outbound.None? && done.cachePath.None?
       case Claim(w, _, token, _, _) => AtItem(c, s, w) && s.workers[w].pc.ReadyToClaim? && Fresh(s, token)
       case Enter(w, _, _, _) => AtItem(c, s, w) && s.workers[w].pc.Entering?
       case Store(w, _, _, _) => AtItem(c, s, w) && s.workers[w].pc.Uploading?
       case Call(w, _) => AtItem(c, s, w) && s.workers[w].pc.Calling?
       case Settle(w, _, _) => AtItem(c, s, w) && s.workers[w].pc.Settling?
       case Close(w, _, _) => AtItem(c, s, w) && s.workers[w].pc.Closing?
       case Sweep(_, _) => true
  }

  // Only worker `w` moves, and it keeps its plan.
  predicate Moves(s: System, t: System, w: nat) {
    && w in s.workers
    && t.workers.Keys == s.workers.Keys
    && (forall v :: v in s.workers && v != w ==> t.workers[v] == s.workers[v])
    && t.workers[w] == s.workers[w].(pc := t.workers[w].pc)
    && s.past.uploads <= t.past.uploads && s.past.expired <= t.past.expired
  }

  function Goto(s: System, w: nat, pc: Pc): System
    requires w in s.workers
  {
    s.(workers := s.workers[w := s.workers[w].(pc := pc)])
  }

  // A ledger operation whose write fails reports an error and changes nothing.
  function Faulty(l: Ledger, op: (Ledger, Result<Unit>), io: Option<string>): (Ledger, Result<Unit>) {
    if io.Some? then (l, Err(io.value)) else op
  }

  function Apply(c: Catalogue, s: System, step: Step): System
    requires Enabled(c, s, step)
  {
    match step
    case Spawn(w, delivery, fingerprint, owner) =>
      s.(workers := s.workers[w := Worker(delivery, fingerprint, owner, Idle)])
    case Persist(w, now, io) => ApplyPersist(c, s, w, now, io)
    case Walk(w, now, token, io) => ApplyWalk(c, s, w, now, token, io)
    case Fetch(w, now, done, io) => ApplyFetch(c, s, w, now, done, io)
    case Claim(w, now, token, hasFallback, io) => ApplyClaim(c, s, w, now, token, hasFallback, io)
    case Enter(w, allowed, prepare, stillAllowed) => ApplyEnter(c, s, w, allowed, prepare, stillAllowed)
    case Store(w, now, stillAllowed, io) => ApplyStore(c, s, w, now, stillAllowed, io)
    case Call(w, answer) =>
      var pc := s.workers[w].pc;
      Goto(s, w, Settling(pc.i, pc.hold, pc.stage, pc.prepared, answer))
    case Settle(w, now, io) => ApplySettle(c, s, w, now, io)
    case Close(w, now, io) => ApplyClose(c, s, w, now, io)
    case Sweep(now, ttl) => ApplySweep(s, now, ttl)
  }

  // A starting gateway reconciles the ledger with its attachment cache.
  function ApplySweep(s: System, now: Tick, ttl: Tick): System {
    var lapsed := set id | id in Ids(s.ledger) && Judge(Get(s.ledger, id), now, ttl).Drop?
                           && Judge(Get(s.ledger, id), now, ttl).expired;
    s.(clock := now, ledger := Reconcile(s.ledger, now, ttl), past := s.past.(expired := s.past.expired + lapsed))
  }

  function ApplyPersist(c: Catalogue, s: System, w: nat, now: Tick, io: Option<string>): (t: System)
    requires w in s.workers && Known(c, s.workers[w])
    ensures Moves(s, t, w) && t.clock == now
  {
    var me := s.workers[w];
    var plan := Plan(c, me);
    var (ledger, result) :=
      Faulty(s.ledger, PersistPlan(s.ledger, me.delivery, me.fingerprint, plan.outbound, plan.items, now), io);
    Goto(s.(clock := now, ledger := ledger), w, if result.Ok? then Next(0) else Stopped)
  }

  // `materialize_delivery_item` up to the point where the worker owns a
  // materialization claim or has a payload to send.
  function ApplyWalk(c: Catalogue, s: System, w: nat, now: Tick, token: string, io: Option<string>): (t: System)
    requires w in s.workers && Known(c, s.workers[w])
    requires s.workers[w].pc.Next? && s.workers[w].pc.i <= |Plan(c, s.workers[w]).items|
    ensures Moves(s, t, w) && t.clock == now
  {
    var me := s.workers[w];
    var i := me.pc.i;
    var plan := Plan(c, me);
    var at := s.(clock := now);
    if i == |plan.items| then Goto(at, w, Stopped)
    else if !plan.items[i].materialize then Goto(at, w, ReadyToClaim(i, Trimmed(plan.items[i].outbound.path)))
    else if io.Some? then Goto(at, w, Stopped)
    else
      var (ledger, reply) :=
        ClaimMaterial(s.ledger, IdOf(c, me, i), me.owner, plan.leaseSeconds, token, now);
      match reply
      case MaterialReady(item) =>
        Goto(at, w, if item.materialized.Some? then ReadyToClaim(i, Trimmed(item.materialized.value.path))
                    else Stopped)
      case MaterialNotRequired(_) => Goto(at, w, ReadyToClaim(i, Trimmed(plan.items[i].outbound.path)))
      case MaterialClaimed(_, _) =>
        Goto(at.(ledger := ledger, used := s.used + {token}), w, Fetching(i, token))
      case _ => Goto(at, w, Stopped)
  }

  function ApplyFetch(c: Catalogue, s: System, w: nat, now: Tick, done: MaterialCompletion, io: Option<string>)
    : (t: System)
    requires AtItem(c, s, w) && s.workers[w].pc.Fetching?
    ensures Moves(s, t, w) && t.clock == now
  {
    var me := s.workers[w];
    var (ledger, result) :=
      Faulty(s.ledger, FinishMaterial(s.ledger, IdOf(c, me, me.pc.i), me.pc.token, done, now), io);
    Goto(s.(clock := now, ledger := ledger), w,
         if result.Ok? && done.ready then ReadyToClaim(me.pc.i, Trimmed(done.cachePath)) else Stopped)
  }

  function RequestOf(c: Catalogue, me: Worker): ClaimRequest
    requires Known(c, me) && me.pc.ReadyToClaim? && me.pc.i < |Plan(c, me).items|
  {
    var p := Plan(c, me).items[me.pc.i];
    ClaimRequest(me.delivery, me.fingerprint, p.key, p.artifactId, p.kind, me.owner, me.pc.path,
                 Plan(c, me).leaseSeconds)
  }

  function HoldOn(past: History, id: ItemId, token: string, item: Item, hasFallback: bool): Hold {
    Hold(token, item, item,
         (if (id, Native) in past.uploads then {Native} else {})
         + (if (id, Fallback) in past.uploads then {Fallback} else {}),
         id !in past.fallbackMedia, hasFallback)
  }

  // A granted claim goes to the native stage, unless the snapshot already
  // records that the native form is unsupported.
  function AfterGrant(i: nat, hold: Hold): Pc {
    if !hold.claim.native.status.Unsupported? then Entering(i, hold, Native)
    else if hold.hasFallback then Entering(i, hold, Fallback)
    else Closing(i, hold, None,
                 NotSent(Infrastructure("native delivery is unsupported and no fallback is available")), false)
  }

  function ApplyClaim(c: Catalogue, s: System, w: nat, now: Tick, token: string, hasFallback: bool,
                      io: Option<string>): (t: System)
    requires AtItem(c, s, w) && s.workers[w].pc.ReadyToClaim?
    ensures Moves(s, t, w) && t.clock == now
  {
    var me := s.workers[w];
    var i := me.pc.i;
    var at := s.(clock := now);
    if io.Some? then Goto(at, w, Stopped)
    else
      var (ledger, reply) := ClaimItem(s.ledger, RequestOf(c, me), token, now);
      match reply
      case AlreadySucceeded(_) => Goto(at, w, Next(i + 1))
      case Claimed(_, item, _) =>
        var id := IdOf(c, me, i);
        Goto(at.(ledger := ledger, used := s.used + {token}, past := s.past.(claimed := s.past.claimed + {id})),
             w, AfterGrant(i, HoldOn(s.past, id, token, item, hasFallback)))
      case _ => Goto(at, w, Stopped)
  }

  // `send_delivery_stage` up to its next ledger operation or provider send.
  function EnterPc(i: nat, hold: Hold, stage: StageName, allowed: Option<Failure>, prepare: PrepareAnswer,
                   stillAllowed: Option<Failure>): Pc
  {
    var prepared := LoadPrepared(hold.claim, stage);
    if allowed.Some? then Settling(i, hold, stage, prepared, NotSent(allowed.value))
    else if prepared.Some? then Calling(i, hold, stage, prepared)
    else
      match prepare
      case Uploaded(u) => Uploading(i, hold, stage, u)
      case NothingToUpload =>
        if stillAllowed.Some? then Settling(i, hold, stage, None, NotSent(stillAllowed.value))
        else Calling(i, hold, stage, None)
      case PrepareFailed(f) => Settling(i, hold, stage, None, NotSent(f))
  }

  // The step hands the payload to `prepare_outbound`.
  predicate CallsPrepare(s: System, step: Step) {
    && step.Enter?
    && step.w in s.workers
    && s.workers[step.w].pc.Entering?
    && step.allowed.None?
    && LoadPrepared(s.workers[step.w].pc.hold.claim, s.workers[step.w].pc.stage).None?
  }

  function ApplyEnter(c: Catalogue, s: System, w: nat, allowed: Option<Failure>, prepare: PrepareAnswer,
                      stillAllowed: Option<Failure>): (t: System)
    requires AtItem(c, s, w) && s.workers[w].pc.Entering?
    ensures Moves(s, t, w) && t.clock == s.clock
  {
    var pc := s.workers[w].pc;
    Goto(s, w, EnterPc(pc.i, pc.hold, pc.stage, allowed, prepare, stillAllowed))
  }

  function ApplyStore(c: Catalogue, s: System, w: nat, now: Tick, stillAllowed: Option<Failure>, io: Option<string>)
    : (t: System)
    requires AtItem(c, s, w) && s.workers[w].pc.Uploading?
    ensures Moves(s, t, w) && t.clock == now
  {
    var pc := s.workers[w].pc;
    var id := IdOf(c, s.workers[w], pc.i);
    var (ledger, result) :=
      Faulty(s.ledger, RecordUpload(s.ledger, id, pc.hold.token, pc.stage, pc.upload, now), io);
    if result.Err? then
      Goto(s.(clock := now), w,
           Closing(pc.i, pc.hold, Some(pc.upload), NotSent(Infrastructure(result.error)), pc.stage.Fallback?))
    else
      var hold := pc.hold.(view := StoreUpload(pc.hold.view, pc.stage, pc.upload, now));
      Goto(s.(clock := now, ledger := ledger, past := NoteUpload(s.past, id, pc.stage, pc.upload)), w,
           if stillAllowed.Some? then Settling(pc.i, hold, pc.stage, Some(pc.upload), NotSent(stillAllowed.value))
           else Calling(pc.i, hold, pc.stage, Some(pc.upload)))
  }

  function NoteUpload(past: History, id: ItemId, name: StageName, u: Upload): History {
    past.(
    uploads := if Blank(u.mediaId) then past.uploads else past.uploads + {(id, name)},
    fallbackMedia := if name.Fallback? then past.fallbackMedia + {id} else past.fallbackMedia)
  }

  predicate BlankAnswer(answer: Answer) {
    answer.Sent? && answer.response.mediaId.Some? && Blank(answer.response.mediaId.value)
  }

  function NoteAnswer(past: History, id: ItemId, name: StageName, answer: Answer): History {
    if name.Fallback? && BlankAnswer(answer) then past.(blankAnswers := past.blankAnswers + {id}) else past
  }

  function ApplySettle(c: Catalogue, s: System, w: nat, now: Tick, io: Option<string>): (t: System)
    requires AtItem(c, s, w) && s.workers[w].pc.Settling?
    ensures Moves(s, t, w) && t.clock == now
  {
    var pc := s.workers[w].pc;
    var id := IdOf(c, s.workers[w], pc.i);
    var outcome := StageOutcome(pc.answer, pc.prepared);
    var (ledger, result) := Faulty(s.ledger, FinishStage(s.ledger, id, pc.hold.token, pc.stage, outcome, now), io);
    if result.Err? then
      Goto(s.(clock := now), w,
           Closing(pc.i, pc.hold, pc.prepared, NotSent(Infrastructure(result.error)), pc.stage.Fallback?))
    else
      var hold := pc.hold.(view := SettleStage(pc.hold.view, pc.stage, outcome));
      Goto(s.(clock := now, ledger := ledger, past := NoteAnswer(s.past, id, pc.stage, pc.answer)), w,
           if pc.stage.Native? && pc.answer.NotSent? && ShouldFallBack(pc.answer.failure) && hold.hasFallback then
             Entering(pc.i, hold, Fallback)
           else Closing(pc.i, hold, pc.prepared, pc.answer, pc.stage.Fallback?))
  }

  function ApplyClose(c: Catalogue, s: System, w: nat, now: Tick, io: Option<string>): (t: System)
    requires AtItem(c, s, w) && s.workers[w].pc.Closing?
    ensures Moves(s, t, w) && t.clock == now
  {
    var pc := s.workers[w].pc;
    var id := IdOf(c, s.workers[w], pc.i);
    var outcome := ItemOutcome(pc.answer, pc.prepared, pc.fallbackUsed);
    var (ledger, result) := Faulty(s.ledger, FinishItem(s.ledger, id, pc.hold.token, outcome, now), io);
    var past := if result.Ok? && pc.fallbackUsed then s.past.(fallbackMedia := s.past.fallbackMedia + {id})
                else s.past;
    Goto(s.(clock := now, ledger := ledger, past := past), w,
         if result.Ok? && pc.answer.Sent? then Next(pc.i + 1) else Stopped)
  }

  // ------------------------------------------------------------------- runs

  ghost predicate IsRun(c: Catalogue, states: seq<System>, steps: seq<Step>) {
    && |states| == |steps| + 1
    && states[0] == START
    && forall i :: 0 <= i < |steps| ==>
                     Enabled(c, states[i], steps[i]) && states[i + 1] == Apply(c, states[i], steps[i])
  }
}
