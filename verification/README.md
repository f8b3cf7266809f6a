# A verified model of HarborGate's protocols

HarborGate passes messages between phones, messaging platforms and home hubs. This
project models the parts of it in which several processes, retries and crashes meet,
and proves what they keep over every run:

* the **delivery ledger** and the worker processes that claim, upload, send and settle
  items through it (`Delivery*.dfy`), with the attachment cache and the batch directories
  it relies on (`Attachment*.dfy`) and the keys that tell items apart (`ItemKeys.dfy`);
* the **route directory** that decides which hub answers a phone, with its outbox of
  numbered updates and the hubs that receive them (`Navi*.dfy`);
* the **relay exchange** under one deadline (`RelayExchange.dfy`) and the **media
  transfer** in 48 KiB ranges over it (`MediaTransfer.dfy`, `Base64.dfy`);
* **device pairing and sessions** (`DeviceSessions.dfy`, `DeviceSessionRuns.dfy`);
* the **canonical JSON** text from which identifiers are hashed (`CanonicalJson*.dfy`) and
  the **dependency closure** behind the license report (`CargoClosure.dfy`).

`dafny verify dfyconfig.toml` checks everything.

## How it is built

Where the source updates state in place, a class has the same fields and methods
(`DeliveryStore.Store`, `NaviDirectory.Fleet`, `DeviceSessions.Store`,
`AttachmentCache.Cache`, `AttachmentBatch.Guard`), and loops stay loops
(`RelayExchange.Exchange`, `MediaTransfer.Download`, `ItemKeys.SplitOutboundItems`,
`CargoClosure.Search`). Each method is proved equal to a function of the old state
(`DeliveryLedger`, `NaviRoutes`, ...), and runs are sequences of states related by those
functions: every ledger call and every directory transaction is one atomic step, as the
file locks make it.

*Delivery.* A worker is a program counter with the snapshot of its claim. Any number of
workers run at once, may stop for ever at any point, and keep running after their lease
has ended; the adapter, the authorization check and each write to disk answer as they
please. The proof is rely-guarantee: a step moves one item along `ItemStep`, every other
worker's assertions survive any such move (`DeliveryInvariants`), and each step
re-establishes the actor's own (`DeliverySteps`).

*Decisions.* What each call decides is stated a second time on what the caller sees: the
message, the answer, the clock and the stored record (`DeliveryDecisions`,
`DeliveryFailures`, `NaviDecisions`, `RelayExchange.OutcomesAreDecided`), so that neither
half of a condition can be lost without a proof failing.

*Routes.* The world (`NaviWorld`) is the directory with phones that send any message,
devices that answer late or twice, and hubs that receive updates in any order and any
number of times and keep the highest revision. It also records the last update queued
for each selection.

## Assumptions

* Random identifiers (claim tokens, generations, pairing codes, session tokens, batch
  directories, file names) are never drawn twice, and SHA-256 is injective. So a cache file
  belongs to one item (`DeliveryCache.NamesAreOwn`).
* The clock does not run backwards. Where one call reads it twice, the two readings are
  separate parameters if their difference matters (`NaviRoutes.Begin`).
* Runs start from an empty ledger, directory or session store. One delivery key and
  fingerprint stand for one plan and one adapter.
* Replies of the network, of platforms and of the file system are parameters or
  arbitrary sequences.

## What the proofs found

* **An upload can be repeated.** `finish_delivery_stage` stores the provider's media
  identifier even when it is blank, so a successful answer with an empty identifier
  overwrites a good fallback upload. `AnswerKeepsUploadIff` is the exact condition on the
  answer, `NoSecondUpload` the guarantee outside it, `BlankAnswerCausesSecondUpload` a run
  in which the second upload happens.
* **A hub can be left "paused".** Withdrawing the identity of a competing device drops the
  pending binding without queueing "active" for the selection that survives.
  `InvalidationStrandsTheSurvivor` says exactly when, `PauseIsLeftBehind` is a run of calls
  the gateway can make, in which a late answer to a call under a phone's first selection
  withdraws that device, and `AnnouncedUnlessAbandoned` bounds the damage in all runs.
* **A proof could be replayed** only if a call's clock readings, before and inside the
  transaction, are more than 60 s apart (`ReplayNeedsClockGap`); the bound is exact
  (`ReplayWindow`).
* **The cache must outlive a lease by a second**, because `updated_at` is cut to whole
  seconds: `LeaseIsSafeIff` is the exact bound for every lease, `LiveLeaseSurvivesSweep`
  its use in every run.
* **Splitting can drop attachments**: one without an artifact identifier travels only if
  the message has no text and none of its attachments has one (`NothingIsLeftBehind`,
  `AnUnnamedAttachmentIsLeftBehind`).

## Model

| member | source | states |
|---|---|---|
| DeliveryStore.Store.ClaimDeliveryItem | src/store.rs:262-380 | the locked claim is exactly the ledger function: grant under a new token and lease, or succeeded, busy, terminal or a conflict that stores nothing |
| DeliveryStore.Store.PersistDeliveryPlan | src/store.rs:382-481 | a plan is recorded whole or a conflict changes nothing; items already on record keep their progress |
| DeliveryStore.Store.ClaimDeliveryMaterialization | src/store.rs:483-541 | the nested claim on an item's media, with its own token and lease |
| DeliveryStore.Store.FinishDeliveryMaterialization | src/store.rs:543-600 | only the nested claim's token settles it; the outer status is reset with it |
| DeliveryStore.Store.RequireActiveClaim | src/store.rs:1092-1104 | which fault, if any, bars a writer with this token now |
| DeliveryStore.Store.RecordDeliveryItemUpload | src/store.rs:746-786 | an upload is written to the stage and to the item's shared media field, under an active claim only |
| DeliveryStore.Store.FinishDeliveryStage | src/store.rs:788-833 | a stage's outcome is written under an active claim only |
| DeliveryStore.Store.FinishDeliveryItem | src/store.rs:835-898 | an item's outcome is written and its lease ended under an active claim only |
| DeliveryStore.Store.RetryableDeliveryPlans | src/store.rs:602-639 | exactly the plans that may be resumed, each once with its fingerprint and payload |
| DeliveryStore.Store.ReconcileDeliveryCache | src/store.rs:671-744 | the new ledger, and exactly which cache files it keeps and gives up |
| DeliverySteps.StepKeeps | src/gateway.rs:1345-1676 | every step of every worker keeps the system invariant and is one the other workers tolerate |
| DeliverySteps.RunKeeps | src/gateway.rs:1345-1835 | every reachable state satisfies the invariant |
| DeliveryTheorems.FencedWrites | src/store.rs:1092-1104 | an item's stage and provider fields change only in a write by the holder of the token on record, while its lease runs |
| DeliveryTheorems.DeadTokensStayDead | src/store.rs:262-380 | a superseded, finished or expired token never becomes valid again, in any later state at any later time |
| DeliveryTheorems.HolderSeesTheLedger | src/gateway.rs:1403-1676 | while a worker's token is the latest, its snapshot with its own writes equals the ledger on the send fields |
| DeliveryTheorems.TokensAreExclusive | src/store.rs:347-380 | no two workers hold one token |
| DeliveryTheorems.SettledItemsStay | src/store.rs:337-345 | success and non-retryable failure are absorbing, although finishing a materialization overwrites the outer status |
| DeliveryTheorems.SendingNeedsMaterial | src/store.rs:507-517 | an item in sending or succeeded has settled media, so every late attempt to finish a materialization is refused |
| DeliveryTheorems.DeliveryIsInOrder | src/gateway.rs:1403-1676 | if an item was ever claimed for sending, every earlier item of its plan is delivered |
| DeliveryTheorems.FallbackNeedsUnsupportedNative | src/gateway.rs:1511-1576 | the fallback stage is untouched unless the native stage is unsupported |
| DeliveryTheorems.UnsupportedNativeStays | src/gateway.rs:1297-1324 | an unsupported native stage stays so for ever, even with overlapping expired workers |
| DeliveryMedia.NativeSendsNativeMedia | src/gateway.rs:1183-1263 | whatever media a native send carries were uploaded for the native form of that item, or named by the provider in answer to it, at an earlier step of the run; never the fallback's, although both write one field |
| DeliveryTheorems.NativeClaimsAreClean | src/gateway.rs:1203-1222 | a native send runs under a claim granted before the fallback had written anything |
| DeliveryTheorems.PrepareOnlyOnce | src/gateway.rs:1183-1263 | a worker uploads for a stage only if none was on record at its grant, but for a blanked fallback identifier |
| DeliveryTheorems.HoldIsFixed | src/gateway.rs:1403-1445 | what a worker holds is what it was granted, for as long as it holds it |
| DeliveryTheorems.NoSecondUpload | src/gateway.rs:1183-1263 | after a usable upload is on record no later claim uploads that stage again, unless a blank answer overwrote the fallback's identifier |
| DeliveryTheorems.UploadsStay | src/store.rs:746-786 | what was uploaded stays in the run's record |
| DeliveryTheorems.NoPlanIsLost | src/store.rs:602-639 | an undelivered plan none of whose items expired is listed for recovery exactly when no item failed terminally |
| DeliveryFailures.FailuresHaveReasons | src/gateway.rs:1638-1674 | in every run an item failed for good only because the platform's message was hopeless when the holder of its claim recorded it, or because fetching its media failed for good |
| DeliveryFailures.FailuresStayOpen | src/store.rs:602-639 | after any other failure the item may be tried again and its plan is listed for recovery, unless another of its items failed for good |
| DeliveryFailures.RetryableMeansHope | src/gateway.rs:2848-2866 | a message is hopeless just if it mentions, in any case of letters, one of nine words about the recipient, the configuration, the permission or the content |
| DeliveryFailures.CloseDecides | src/gateway.rs:1597-1674 | the platform's answer alone decides whether a held item is sent, open or failed for good, and with which identifiers; without the claim nothing is recorded |
| DeliveryProgress.NothingIsWedged | src/gateway.rs:1403-1676 | after any run, crashes included, an item that nobody holds and that has not failed for good is delivered by any worker before it, alone, in at most seven steps, if its media can be fetched and the platform takes it |
| DeliveryDecisions.SendsAreAuthorized | src/gateway.rs:1224-1263 | in every run the platform is called only by a worker whose last step was authorized, and again after anything was uploaded |
| DeliveryDecisions.PersistDecides | src/store.rs:382-481 | a plan is recorded whole the first time, found the next time, refused where the key stands for another request |
| DeliveryDecisions.ClaimDecides | src/store.rs:337-380 | delivered, hopeless and held items are told apart and not granted; any other is, for exactly its lease of at least one second, and goes to the native form unless that is known not to be taken |
| DeliveryDecisions.WalkDecides | src/gateway.rs:1679-1745 | whether a worker sends, fetches media first or stops, by the state of the media alone |
| DeliveryDecisions.FetchDecides | src/store.rs:543-600 | a fetch is recorded with its payload or its failure, or not at all once the claim is lost |
| DeliveryDecisions.EnterDecides | src/gateway.rs:1224-1263 | a refused authorization ends the stage, media on hand are sent as they are, and others are uploaded first |
| DeliveryDecisions.StoreDecides | src/store.rs:746-786 | an upload is on record for its stage and the item before it is used, under the claim only |
| DeliveryDecisions.SettleDecides | src/gateway.rs:1265-1321 | what is recorded of a stage, and that the fallback is tried just when the platform's code says the native form is not taken and there is another |
| DeliveryDecisions.ReconciliationDecides | src/store.rs:671-744 | a cache file is kept just for an item that may still be sent and has not waited too long; one that has is ended |
| DeliveryTheorems.LiveLeaseSurvivesSweep | src/store.rs:671-744 | reconciliation leaves an item under a running lease sending, if the cache outlives the lease by a second |
| DeliveryWitness.AnswerKeepsUploadIff | src/store.rs:788-833 | settling a successful fallback keeps its upload reusable if and only if the answer's media identifier is not blank |
| DeliveryWitness.BlankAnswerCausesSecondUpload | src/gateway.rs:1183-1263 | a reachable state with a fallback upload on record whose next step uploads again |
| DeliveryWitness.LeaseIsSafeIff | src/store.rs:671-744 | reconciliation leaves every running claim sending, however it was granted, if and only if the cache life exceeds the lease by a second, or the item has no cache file or may not be retried |
| DeliveryCache.DeletedFilesAreNotNeeded | src/gateway.rs:1597-1672 | over every run, a file that a worker deletes after settling an item, its own or one an earlier attempt had left, is from then on recorded for no item that may be retried, so reconciliation keeps it for none |
| DeliveryCache.DeletedBelongs | src/gateway.rs:1603-1637 | whichever worker deletes a file, the file belongs to the very item it has just settled, and that item is delivered or has failed for good |
| AttachmentCache.Cache.RemoveReconciled | src/gateway.rs:2092-2118 | paths not listed are untouched whatever fails; on success no listed file is left |
| AttachmentCache.Cache.SweepBatch | src/gateway.rs:2127-2172 | a batch is touched only if expired, all files or links, and free of retained files; on success it is gone |
| AttachmentCache.Cache.Sweep | src/gateway.rs:2120-2175 | only sweepable batches are touched whatever fails, and on success all of them are gone |
| AttachmentCache.Restart | src/gateway.rs:291-303 | a file that some item keeps and none gives up survives every outcome of a start; one given up does not survive a successful start |
| AttachmentBatch.Materialize | src/harborbeacon.rs:236-351 | every attachment is fetched to its own file, in order, or none is reported and, without file faults, nothing is left behind; other batches are untouched |
| AttachmentBatch.Guard.DisarmPath | src/gateway.rs:257-262 | exactly this path is released; the directory with the last one |
| AttachmentBatch.Guard.Drop | src/gateway.rs:265-282 | released files are untouched; without faults every other one is gone |
| ItemKeys.ItemKeysAreInjective | src/gateway.rs:1945-1950 | two keys are equal only for the same delivery key and the same item |
| ItemKeys.IdentitiesAreInjective | src/gateway.rs:1952-1954 | identities tell artifacts apart and never equal the reserved text identity |
| ItemKeys.AttachmentKeysAreInjective | src/gateway.rs:1945-1954 | the composed key tells delivery and artifact apart |
| ItemKeys.SplitOutboundItems | src/gateway.rs:1969-2021 | an error exactly when two attachments share an artifact identifier; otherwise the items of the message in order |
| ItemKeys.ItemsHaveTheirOwnKeys | src/gateway.rs:1969-2021 | the items of an accepted message have pairwise different keys, text item included |
| ItemKeys.NothingIsLeftBehind | src/gateway.rs:1969-2021 | the items carry all attachments, once and in order, exactly when each has an identifier, or the text is blank and none has |
| ItemKeys.ItemsSay | src/gateway.rs:1969-2021 | every item is the text alone, one attachment alone under the first of its three identifiers and its kind, or the whole of a message that has neither |
| ItemKeys.ShortKeys | src/gateway.rs:1945-1954 | the keys and identities of one letter, spelled out |
| ItemKeys.AnUnnamedAttachmentIsLeftBehind | src/gateway.rs:1969-2021 | a message with a text and one unnamed attachment, which no item carries |
| NaviDirectory.Fleet.BeginSwitch | src/navi_fleet.rs:255-320 | the transaction's effect and answer for any message; an error stores nothing |
| NaviDirectory.Fleet.ClaimPending | src/navi_fleet.rs:323-346 | expired bindings are dropped everywhere, or on a fault nowhere; the due one polled least recently is handed out |
| NaviDirectory.Fleet.FinishPending | src/navi_fleet.rs:374-460 | a device's answer refuses, refreshes or switches the route it still belongs to, or changes nothing |
| NaviDirectory.Fleet.ClaimRouteUpdate | src/navi_fleet.rs:462-475 | a due update with the earliest poll time, and only its poll time moves |
| NaviDirectory.Fleet.FinishRouteUpdate | src/navi_fleet.rs:477-511 | only an answer about the update on record removes it |
| NaviDirectory.Fleet.SelectRoute | src/navi_fleet.rs:533-560 | which selection, if any, a message goes to |
| NaviDirectory.Fleet.CheckOutbound | src/navi_fleet.rs:562-593 | which outbound messages still carry the selection in use |
| NaviDirectory.Fleet.InvalidateIdentity | src/navi_fleet.rs:139-163 | every trace of the lost identity goes, nothing else |
| NaviDirectory.Fleet.NotificationTarget | src/navi_fleet.rs:165-185 | a due route with the earliest poll time, moved 15 s on |
| NaviDecisions.ProofsAreRead | src/navi_fleet.rs:255-284 | the messages taken for proofs are exactly the direct messages of the form "NAVI hub.token", and hub and token are read from them |
| NaviDecisions.ProofsAreHeard | src/navi_fleet.rs:281-317 | a proof is stored if and only if it comes in time, is not remembered and its route can take it, with its own deadline; otherwise every binding and selection stays |
| NaviDecisions.AnswersDecide | src/navi_fleet.rs:392-460 | in every reachable directory a device's answer ends, prolongs or fulfils the binding it belongs to under exactly these conditions, and otherwise changes nothing |
| NaviDecisions.ReceiptsDecide | src/navi_fleet.rs:477-511 | an update on record is settled by its own acknowledgement or by 403 or 410, and by nothing else |
| NaviDecisions.WithdrawalsDecide | src/navi_fleet.rs:139-163 | of a lost device no route keeps a selection, a queued update or a binding that could be its; all else stays |
| NaviDecisions.MessagesAreRouted | src/navi_fleet.rs:533-560 | a message is routed to a selection if and only if the selection is in use, no switch is pending, and it is a direct message written after the selection and not over a minute ahead of the clock |
| NaviDecisions.ConversationsGoOn | src/navi_fleet.rs:533-593 | over every run such a message reaches its selection, and the answer carrying it passes the check in every later directory in which it is still in use with no switch pending |
| NaviSteps.MoveKeeps | src/navi_fleet.rs:78-108 | every move of the world keeps numbering, status and delivery of updates, and replaces an update only by a higher revision |
| NaviSteps.RunKeeps | src/navi_fleet.rs:191-253 | every reachable world satisfies the invariant |
| NaviConvergence.AnnouncedUnlessAbandoned | src/navi_fleet.rs:78-108 | in every run, each selection a route ever made has a last update with its present status that is queued or held by the hub, unless its own device was lost, its own update answered 403 or 410, or it was stranded as below, and nothing was queued for it since; the outbox holds at most 64 |
| NaviConvergence.HubsConverge | src/navi_fleet.rs:78-108 | so with no lost identity and no 403 or 410 answer, other failures included, every selection ever made is announced as active, paused or retired |
| NaviConvergence.DrainedHubsAgree | src/navi_fleet.rs:477-511 | in such runs, once the outbox has drained, the hub shows the present status of every selection ever made |
| NaviConvergence.RevisionsIncrease | src/navi_fleet.rs:90-106 | a newly queued update is numbered above everything its route queued before |
| NaviConvergence.StaleReceiptsChangeNothing | src/navi_fleet.rs:483-494 | an answer about an update that is not the last one queued leaves the world as it was |
| NaviConvergence.InvalidationStrandsTheSurvivor | src/navi_fleet.rs:139-163 | after an identity is withdrawn, a surviving selection's last update has its present status if and only if its pending binding did not match the identity |
| NaviWitness.PauseIsLeftBehind | src/navi_fleet.rs:145-157 | for any three proofs of a phone for hub n, hub m and n again there is a run in which every answer is about a binding handed out and the identity withdrawn is that of a selection a hub was asked under, whose last word on the selection in use is "paused" with nothing pending |
| NaviWitness.RivalsExist | src/navi_fleet.rs:255-284 | for any two hubs and any time there are three messages for such a run |
| NaviSelections.SelectionsAreIntervals | src/navi_fleet.rs:445-454 | once replaced or revoked, a selection is never again in use on any route, and no outbound message carrying it passes the check |
| NaviSelections.CheckedMeansUninterrupted | src/navi_fleet.rs:533-593 | an outbound message that passes the check proves its selection was in use ever since its inbound message, on that route alone, and that the message was written after the selection |
| NaviConfirmation.SelectionsAreConfirmed | src/navi_fleet.rs:253-320 | every selection ever in use stems from the newest proof on its route: the phone's message names the selected device, that device's owner confirmed after the message was written, and the switch came within 300 s of it |
| NaviConfirmation.NewSelectionSwitches | src/navi_fleet.rs:374-460 | only an accepted and bound answer to the pending binding on record makes a selection that was not in use |
| NaviSelections.ReplayNeedsClockGap | src/navi_fleet.rs:262-317 | one phone message creates a second binding only in a call whose clock readings are more than 60 s apart |
| NaviSelections.ReplayWindow | src/navi_fleet.rs:281-317 | presented again at the last fresh second, a message creates a second binding if and only if the gap exceeds 60 s |
| NaviSelections.PendingOnlyTightens | src/navi_fleet.rs:403-429 | between creations a pending binding's deadline never moves later and its pinned identity and session never change |
| NaviFairness.BoundedWaiting | src/navi_fleet.rs:165-185 | a due route that stays eligible is polled within as many polls as there are eligible routes, whatever other operations intervene |
| NaviUpdateTurns.UpdatesHaveTheirTurn | src/navi_fleet.rs:462-475 | a due update that stays on record is sent within as many deliveries as there are updates on record, whatever other operations intervene, so a failing hub does not hold up the others |
| NaviUpdateTurns.NewUpdatesAreDue | src/navi_fleet.rs:94-106 | what a move queues is due at once and stamped with the move's time |
| NaviBindingTurns.BindingsHaveTheirTurn | src/navi_fleet.rs:336-346 | a due binding that stays pending and unanswered is handed out within as many claims as there are bindings, new ones included |
| NaviBindingTurns.ClaimsHandOut | src/navi_fleet.rs:323-346 | while a due binding waits, every claim hands one out, for the first 2^52 moves of a run |
| NaviBindingTurns.CreatedOnce | src/navi_fleet.rs:285-317 | a binding that is gone comes back only in a call whose clock readings are more than 60 s apart |
| NaviExpiry.RunLeavesRoom | src/navi_fleet.rs:78-108 | in every run a route with a selection and a pending binding has room in its outbox for the update that ends the wait |
| NaviExpiry.ExpiryNeverBlocks | src/navi_fleet.rs:323-335 | in every reachable world the sweep over expired bindings commits if and only if each route it must announce is below the revision limit, so a full outbox never blocks the other routes |
| NaviFairness.NeverTwiceWithin15Seconds | src/navi_fleet.rs:165-185 | two polls of one route are at least 15 s apart |
| RelayExchange.Exchange | src/cloud_relay.rs:234-370 | for every sequence of replies the loop ends, with the transcript and outcome the specification gives |
| RelayExchange.PollsFollowAcceptance | src/cloud_relay.rs:278-287 | the first request publishes, and every other one publishes the same bytes again or asks for this call after an accepted publication and within two seconds of it |
| RelayExchange.PublicationsAreSpaced | src/cloud_relay.rs:283-285 | after an accepted publication the next comes at least two seconds later |
| RelayExchange.RequestsAreBounded | src/cloud_relay.rs:274-278 | no request is sent after the original deadline, each comes a quarter of a second after the reply before it, and their number is bounded by the time to live |
| RelayExchange.ResultsAreVouched | src/cloud_relay.rs:312-362 | a result comes only from a timely 200 that names the request and agrees on deadline and identity with the pin and with every accepted reply |
| RelayExchange.OutcomesAreDecided | src/cloud_relay.rs:294-364 | an exchange ends with a result if and only if its last reply is a good one in time, field by field; likewise with a changed identity and with a malformed reply |
| RelayExchange.TransientsAreRetried | src/cloud_relay.rs:294-299 | overload, server errors, lost connections and a pending answer never end an exchange that has time left, and nothing else lets it go on |
| RelayExchange.RepliesDecide | src/cloud_relay.rs:234-370 | the replies determine all requests and the outcome |
| Base64.DecodeInvertsEncode | src/harborbeacon.rs:746-752 | decoding undoes encoding (RFC 4648 section 4) |
| Base64.DecodeIsCanonical | src/harborbeacon.rs:746-752 | the strict decoder accepts only the text the encoder writes |
| Base64.DecodesByTheTable | src/harborbeacon.rs:746-752 | a text decodes to bytes if and only if its characters, by their places in Table 1 of RFC 4648, spell the bits of these bytes, padding included |
| MediaTransfer.AcceptedReplies | src/harborbeacon.rs:717-761 | the checks accept exactly the well-formed replies for the requested range; no subtraction goes below zero and no full chunk is turned away |
| MediaTransfer.RefusalsAreDenied | src/harborbeacon.rs:723-729 | exactly the six refusing statuses are reported as withdrawn permission |
| MediaTransfer.FullChunkFillsTheLimit | src/harborbeacon.rs:442-443 | 48 KiB fill the limit of 65,536 characters exactly |
| MediaTransfer.ChunksAreWhole | src/harborbeacon.rs:753-759 | every range but the last is one whole chunk |
| MediaTransfer.Download | src/harborbeacon.rs:433-483 | for any responder the loop ends, asking for consecutive ranges, with the file or the error of the specification |
| MediaTransfer.TransferIsExact | src/harborbeacon.rs:450-472 | a transfer stores a file if and only if every round delivered its own part of it, of 1 byte to 128 MiB, without gap or overlap |
| MediaTransfer.HonestTransfersArrive | src/harborbeacon.rs:433-483 | against an honest hub the file is the artifact |
| DeviceSessions.ConstantTimeEq | src/device_session.rs:314-322 | the OR-fold of XORs is zero just when the digests are equal |
| DeviceSessions.NoDifference | src/device_session.rs:314-322 | the fold has no bit set exactly for equal sequences |
| DeviceSessions.Store.IssuePairing | src/device_session.rs:84-116 | the new records after an issue, or the error that stores nothing |
| DeviceSessions.Store.Exchange | src/device_session.rs:118-165 | the first open pairing with the code is consumed and one session added, or nothing changes |
| DeviceSessions.Store.Current | src/device_session.rs:180-202 | the principal of the first live session with the token, or a refusal |
| DeviceSessions.Store.Authenticate | src/device_session.rs:167-178 | that principal for its own camera only |
| DeviceSessions.Store.Revoke | src/device_session.rs:204-219 | the first unrevoked session with the token is marked, or nothing changes |
| DeviceSessionRuns.OneSessionPerPairing | src/device_session.rs:118-165 | in every run each issued code grants at most one session, and every session stems from one, for the same camera |
| DeviceSessionRuns.AuthenticationIsExact | src/device_session.rs:167-202 | a token authenticates if and only if it was granted, is not revoked and not expired, whatever records were dropped |
| DeviceSessionRuns.SessionsLastTheirTime | src/device_session.rs:118-165 | a token traded for a code authenticates, for that code's camera, until exactly its time to live after the trade, or its withdrawal |
| DeviceSessionRuns.CodesLastTheirTime | src/device_session.rs:84-147 | a code is traded only within its time to live, for the camera it was issued for |
| DeviceSessionRuns.CodesStayGood | src/device_session.rs:84-147 | until then an unspent code can be traded, whatever else was issued or traded |
| DeviceSessionRuns.DeadSessionsStayDead | src/device_session.rs:180-219 | a revoked or expired session never authenticates again |
| DeviceSessionRuns.RevocationTakesEffect | src/device_session.rs:204-219 | after a revocation the token authenticates in no later state of the run, at no time |
| CanonicalJsonProofs.CanonicalIffEquivalent | src/harborbeacon.rs:1142-1170 | two values have one canonical text if and only if they are equal up to the order of object members |
| CanonicalJsonProofs.ParserInvertsCanonical | src/harborbeacon.rs:1142-1170 | a parser (strings as in section 7 of RFC 8259) reads every canonical text back as an equivalent value |
| CanonicalJsonProofs.MembersAscend | src/harborbeacon.rs:1144-1158 | the members of an object are written in ascending order of their keys, each once |
| CanonicalJsonProofs.EscapesAreShortest | src/harborbeacon.rs:1150-1153 | a character is written as itself, by its letter, or by its number in lower case, whichever comes first |
| CargoClosure.Search | scripts/generate_third_party_licenses.py:136-161 | the worklist ends with exactly the packages reachable over normal or build edges and the kinds of edge that need each; it fails exactly if a reachable package is malformed |
| CargoClosure.NormalAndBuildCount | scripts/generate_third_party_licenses.py:147-155 | a dependency counts as normal or build just if its list of kinds says so, null meaning normal |
| CargoClosure.TargetClosure | scripts/generate_third_party_licenses.py:108-189 | every needed package but the root once, in order, with sorted kinds and features; an error exactly when a reachable package is malformed or cannot be listed |

## Left out

- Exactly-once sending: a crash after the provider call, or an overrun lease, can send again by design; the claim-level facts above are proved instead.
- DeliveryTheorems.NoPlanIsLost: does not cover plans with an expired item, because expired items are outside the recovery the source promises.
- DeliveryTheorems.SettledItemsStay: says nothing of items the cache sweep expired, because the source lets those be claimed again.
- DeliveryWitness.AnswerKeepsUploadIff: speaks of one settling step, and the run-level half is NoSecondUpload, because whether a provider answers blank is outside the system.
- DeviceSessionRuns.AuthenticationIsExact: asks that the present clock reading is no earlier than those of past exchanges, because an exchange drops the records it finds expired.
- NaviBindingTurns.BindingsHaveTheirTurn: asks that no call's two clock readings are more than 60 s apart and that the waiting binding is not answered, because a replayed proof enters in front and an answer sets a new poll time.
- Whether a claim's own cache path equals the one it found is decided on texts; the source compares paths by components.
- DeliveryProgress.NothingIsWedged: is about what one worker can do next, because whether and when a platform answers is outside the system.
- DeviceSessionRuns.CodesStayGood: asks that no code was issued at a later clock reading, because an issue drops the records it finds expired.
- Delivery workers are a step function over program counters, not methods: several of them interleave at every ledger call.
- Legacy ledger records (items without materialization, leases by `updated_at` alone) appear in the store's functions but not in runs, which start empty.
- Blank delivery keys, the overflow branch of the lease computation, the `updated_at` fields of stages, and ill-typed JSON in the ledger.
- Retryability of an adapter's message is decided with ASCII case folding only (`map_delivery_failure`).
- The choice among equally due bindings, updates and routes is left open; the source takes the first in key order.
- In the route directory a purge or expiry uses one clock reading per transaction; the reading before the lock is separate.
- Failures to write the directory, ledger or session file, and the 4 MiB limit: a step either commits or changes nothing.
- Serialized sizes in the relay exchange are parameters; signing, credentials, TLS and reply size limits are part of "the reply failed".
- The file system: recorded paths lie in a batch directory directly under the cache root; links are removed as files.
- Numbers in JSON are their tokens; the parser is part of the proof, not of the source.
- The Cargo graph: package identifiers are texts, the root is already identified, and the output of `cargo metadata` is given.
- Platform adapters, HTTP routing, setup pages, QR codes, the inbox loop, and the other release scripts.
