# Permissions, pane streams and notifications of the remote console

A Dafny model of the parts of the console that keep invariants while browser callbacks, timers, other tabs,
other processes and the preview page interleave, with proofs about all their runs.
`dafny verify dfyconfig.toml` checks everything.

## What is modelled

A step of the model runs from one `await`, callback, timer, posted message or `localStorage` call to the next.
What the browser, the user, other tabs and native providers decide arrives as a parameter of the step.

- **Preview permissions.** Three layers and two message channels.
  - `Grants.dfy`: saved approvals in `localStorage`, shared by any number of tabs, one storage call a step,
    any of which may throw.
  - `BrokerSpec.dfy`: the parent's broker as step functions: the consent queue, native work and its 16 slots, the
    replay history, watches, notifications, cancellation and document replacement. `BrokerInvariant`, `BrokerWork`,
    `BrokerConsent`, `BrokerPrompt` and `BrokerRequests` prove its invariant, `BrokerTheorems`, `BrokerFrames`,
    `BrokerCancellation` and `BrokerAnswers` what follows, `BrokerAccess` that native work needs consent,
    `BrokerReplies` that each request is answered once, `BrokerOutcomes` and `BrokerEffects` what starts and stops,
    and `BrokerTraps` runs in which an obvious claim fails. `Broker.dfy` is the hook itself: a class with the refs
    as fields, each callback proved to make the step of `BrokerSpec` and to keep the invariant.
  - `ShimSpec.dfy`, `ShimInvariant.dfy`, `ShimTheorems.dfy`, `ShimCancels.dfy`, `ShimNumbers.dfy`, `ShimLife.dfy`,
    `ShimWire.dfy`: the shim inside the preview, with application callbacks that call back into it. `Shim.dfy` is
    the script's closure as a class.
  - `Composition.dfy`, `CompositionTraps.dfy`: shim and broker together over two first-in first-out channels.
  - `Wire.dfy`, `Messages.dfy`, `Replies.dfy`: what each side posts and what the other side's own validator
    accepts.
- **Pane stream** (`PaneStream.dfy`): dropping output, acknowledgements, reseeds, and what the browser shows.
- **Push delivery** (`PushSpec.dfy`, `PushInvariant.dfy`, `PushService.dfy`) and the **VAPID store** shared by
  several processes (`Vapid.dfy`). Topics replace undelivered messages as in section 5.4 of RFC 8030.
- **Agent notifications** (`Coordinator.dfy`), against a specification on traces.
- **Key dispatch** (`KeyDispatch.dfy`), **coalesced runs** (`Scheduling.dfy`) and **chunked readers** with the
  proxy's upgrade slots (`Chunks.dfy`).

Where the source is a closure or class that updates its variables, there is a class whose methods update fields:
`PermissionBroker`, `PermissionShim`, `PaneSocket`, `Service`, `AgentNotificationCoordinator`, `KeyDispatcher`,
`VisibilityPoller`, `DeriveQueue`, `HandshakeScanner` and `UpgradeSlots`. Each method ensures the step it makes
and that the theorem about runs holds of the object it leaves.

## Findings

Claims that one would make of the code and that are false, each with an input and with the exact condition.

- **The consent queue can exceed 16.** A granted "always" choice that could not be saved puts its siblings back
  in the queue without the check that a new request meets (apps/web/src/browser-permissions.tsx:763 against
  line 678). `BrokerTraps.QueueExceedsItsLimit` is a run from the initial state to 17 entries.
  `BrokerFrames.QueueLimitExactly`: a step from a queue within the limit stays within it if and only if it is not
  consent settling whose put-back siblings (the guard of line 763) and the queue together are more than 16. The
  bound that does hold in every run is 32 with everything in open prompts (`BrokerTheorems.BacklogIsBounded`).
- **A lookup that runs is answered after a deny.** `BrokerTraps.RunningLookupAnswersAfterDenial` reaches a document
  that denies geolocation and hands over a position. `BrokerFrames.LookupAnswersExactly`: a lookup that settles
  posts its answer if and only if its document is live and its id is not cancelled; what the document denies
  plays no part. `DenialHolds` is about starting work.
- **A cancellation can outlive its work.** A notification closed a second time while the first close is awaited
  (apps/web/src/browser-permissions.tsx:571) leaves its id cancelled and no longer in flight, for as long as the
  document lives. `BrokerCancellation.CancellationStaysBehind` is such a run. `BrokerCancellation.TidyExactly`: a
  step keeps cancelled ids within the ids in flight if and only if it does not end the withdrawal of a
  notification that was closed again meanwhile.
- **A late close defeats the broker's queue limit.** `close()` with a full table of 32 drops the shim's entry
  and posts nothing (apps/server/src/project-browser-permissions.ts:764), so the shim counts one request fewer
  than the broker holds (`Composition.LateCloseForgets`). `CompositionTraps.LateCloseIsRefused` is a whole run from
  the initial state that ends in the broker's refusal "Too many pending permission requests". Without such a close
  no run has that refusal, as long as no document closes more than 54 notifications by two messages each
  (`Composition.QueueLimitIsUnreachable`): each of those can leave one cancellation behind, and beside 54 of them
  the broker still remembers every request (`BrokerTheorems.RoomBeside`).
- **A watch number can name two watches.** After 2147483647 calls of `watchPosition` the numbers begin again
  (apps/server/src/project-browser-permissions.ts:301), and a watch that was kept throughout shares its number with a
  new one (`ShimNumbers.NumbersCollide`, a run of one call more). Up to that many calls every number names one watch
  (`ShimNumbers.NumberNamesWatch`), and a step keeps the numbers apart if and only if it retains no watch under a
  number that another has (`ShimNumbers.ApartExactly`).
- **A saved approval can be answered without its grant.** A save whose verifying read throws cleans up between
  another tab's two last reads (`Grants.FailedSaveStrandsAnswer`). `Grants.StrandedExactly`: the answer misses its
  grant if and only if, after the reader saw the grant and before its last read, a save took the grant back and none
  wrote it again.
- **Orphan grants survive.** A begin that read the pointer before another rotation never removes that
  rotation's grant (`Grants.OrphanSurvives`). `Grants.GrantsAtRest`: once the calls of a run without storage
  exceptions have all returned, a grant is in storage if and only if it was there at the start or its save answered
  true, no begin read the pointer while it named that choice, and no overtaken save took the grant back. An orphan is
  inert for ever (`Grants.SupersededForever`).
- **The screen can be wrong on a stream that looks healthy.** There are two inputs: a reset during a seed
  (`PaneStream.OverlapMixes`), and a reset before the first seed was asked for, whose capture is then followed by a
  first seed that nothing announces (`PaneStream.EarlyResetMixes`; apps/server/src/app.ts:3562 and 3639). The exact
  condition, for every open stream that is neither seeding nor dropped: the screen is the whole output if and only
  if the last reply was the first, or a reset was announced since the reply before it (`PaneStream.ScreenIsExact`);
  with no capture in flight, if and only if the last capture was asked for while none was in flight, and by a reset
  or as the very first (`PaneStream.LoneCapturesAreExact`).
- **A power loss can split the key pair.** A process returns the pair it read before the winner's directory
  entry is synchronized; `Vapid.LostEntryDisagrees` is a run with two different answers, for any two valid pairs.
  `Vapid.AgreementExactly`: a step keeps all calls in agreement with the store if and only if it is no power loss
  that takes the name away after a call has returned. Losses before that are harmless (`Vapid.AllCallsAgree`), and
  after any harmful one a later call can return whatever valid pair (`Vapid.LostEntryAllowsAnyPair`).

## Model

| member | source | states |
|---|---|---|
| `Grants.SupersededForever` | apps/web/src/browser-permission-grants.ts:45-74 | once the pointer has left a token, no interleaving of any number of old or new calls makes it the pointer, or an approval, again |
| `Grants.SavedAnswerIsApproved` | apps/web/src/browser-permission-grants.ts:33-39 | in every run, an answer t is the pointer at the last read and some save wrote its grant; the grant is still there unless a save of t met a storage exception |
| `Grants.StrandedExactly` | apps/web/src/browser-permission-grants.ts:33-74 | the answer misses its grant if and only if a save took it back between the reader's two last reads and none wrote it again |
| `Grants.FailedSaveStrandsAnswer` | apps/web/src/browser-permission-grants.ts:63-74 | a run in which that happens |
| `Grants.SaveAnswer` | apps/web/src/browser-permission-grants.ts:63-74 | without exceptions, a save that answers true leaves an approval, and one that answers false has lost its choice in every later run |
| `Grants.ForgetHolds` | apps/web/src/browser-permission-grants.ts:45-82 | when forgetting answers true no approval exists, and in every later run only a choice rotated in and reported ready after that moment can be approved, whatever older saves still run |
| `Grants.ClearedExactly` | apps/web/src/browser-permission-grants.ts:14-60 | in every run, a begin that reports ready reports its old grant as cleared if and only if the pointer it captured was no generated choice, or its verifying read did not throw and found the captured grant absent |
| `Grants.BeginAlone` | apps/web/src/browser-permission-grants.ts:45-82 | a begin that runs alone and without exceptions, from any storage, reports ready and cleared after five storage calls, and a revocation that runs so answers true |
| `Grants.BeginAnswersExactly` | apps/web/src/browser-permission-grants.ts:45-60 | in every run, whatever throws, a begin answers that it is unavailable if and only if its read of the pointer, its rotation or its confirming read threw; otherwise ready if and only if its confirming read still sees the token it drew, else superseded |
| `Grants.SaveAnswersExactly` | apps/web/src/browser-permission-grants.ts:63-74 | in every run, whatever throws, a save answers true if and only if every storage call of it succeeded and showed what it wants to see; one that answers false had not passed its first check or has tried to take its grant back |
| `Grants.LookupAlone` | apps/web/src/browser-permission-grants.ts:33-39 | a lookup that runs alone answers the pointer's token if and only if its grant is there |
| `Grants.OrphanSurvives` | apps/web/src/browser-permission-grants.ts:45-60 | a run without exceptions that ends with no call running and a grant left behind for a spent token |
| `Grants.GrantsAtRest` | apps/web/src/browser-permission-grants.ts:14-74 | after any run without exceptions whose calls have returned, the grants in storage are exactly those present at the start or saved with the answer true, that no begin captured and no overtaken save took back |
| `Grants.KeysDoNotCollide` | apps/web/src/browser-permission-grants.ts:1-12 | pointer and grant keys of different sites, and of the two kinds, are different strings |
| `BrokerRequests.NextKeepsValid` | apps/web/src/browser-permissions.tsx:278-990 | every step of the broker, for an arbitrary preview and arbitrary native answers, keeps the whole invariant, and moves its logs as the theorems on runs need |
| `BrokerTheorems.OwnersStayRemembered` | apps/web/src/browser-permissions.tsx:884-905 | in every run at most 128 ids are remembered, among them every id that owns a queue entry, watch, notification, native work or cancellation |
| `BrokerTheorems.OwnedIdIsRefused` | apps/web/src/browser-permissions.tsx:884-905 | a request under an owning id is answered as a duplicate and changes nothing else, however much history was pruned |
| `BrokerTheorems.TooManyActiveExactly` | apps/web/src/browser-permissions.tsx:884-905 | a fresh request finds no room if and only if all 128 remembered ids own something |
| `BrokerTheorems.RoomBeside` | apps/web/src/browser-permissions.tsx:884-905 | while at most 54 cancellations have outlived their work, a fresh request finds room |
| `BrokerTheorems.SlotsAreConserved` | apps/web/src/browser-permissions.tsx:100-113 | in every run, across live and replaced documents, the window's owners are exactly the disjoint union of those of unsettled native work, at most 16; the other tables keep their bounds |
| `BrokerTheorems.BacklogIsBounded` | apps/web/src/browser-permissions.tsx:667-772 | in every run queued requests and requests in open native prompts are at most 32 together |
| `BrokerTheorems.PromptIsHead` | apps/web/src/browser-permissions.tsx:377-382 | in every run a click decides the request at the head of the queue |
| `BrokerTheorems.DenialHolds` | apps/web/src/browser-permissions.tsx:602-682 | once a document denies a capability, by click or natively, no later step starts native work for it in that document: not from the queue, put-back siblings, saved grants or clipboard siblings |
| `BrokerAccess.AccessNeedsConsent` | apps/web/src/browser-permissions.tsx:597-822 | in every run, every native access that was ever begun belongs to a request that was approved when it arrived, that was the head of the queue at a click on allow whose choice stood, or that an "always" choice for its document and capability let through when it was saved |
| `BrokerAccess.NothingRunsUnlogged` | apps/web/src/browser-permissions.tsx:383-647 | in every run, no lookup, clipboard call, show or watch is under way that was not begun so |
| `BrokerAccess.PromptsNeedAClick` | apps/web/src/browser-permissions.tsx:775-822 | a native notification prompt opens only at a click on allow for the notification request at the head of the queue |
| `BrokerAccess.RequestMeets` | apps/web/src/browser-permissions.tsx:667-682 | a new request joins the queue if and only if its capability is not denied, nothing is approved for it and the queue has room; denied or without room it is refused, approved it starts, a clipboard call only while its approval stands and a slot is free |
| `BrokerAccess.ClickRuns` | apps/web/src/browser-permissions.tsx:775-822 | a click on allow for a location runs exactly it, or with a saved "always" every location request of its document in order; exactly those leave the queue, and nothing happens if the choice does not stand |
| `BrokerOutcomes.PromptStarts` | apps/web/src/browser-permissions.tsx:684-772 | when the native prompt settles, exactly those of its notifications start that were not cancelled, while the prompt was granted, nothing denies them and the choice stands; without a saved "always", only the one clicked on |
| `BrokerOutcomes.CopyAnswersExactly` | apps/web/src/browser-permissions.tsx:597-647 | a clipboard call that settles hands over its result if and only if it succeeded, its document is live, it was not cancelled or denied meanwhile, and its approval stands before and after it could be saved |
| `BrokerEffects.EndsExactly` | apps/web/src/browser-permissions.tsx:335-375 | a document ends if and only if the frame navigates, loads without having connected since the last load, connects anew, or disconnects under its name |
| `BrokerEffects.GarbledMeets` | apps/web/src/browser-permissions.tsx:845-884 | a message that cannot be parsed is told so if and only if it is from the connected document of the managed frame, and nothing else happens |
| `BrokerEffects.RepeatMeets` | apps/web/src/browser-permissions.tsx:884-905 | a request of an unknown document or under a remembered id is told so, and nothing else happens |
| `BrokerEffects.ForgetsExactly` | apps/web/src/browser-permissions.tsx:884-905 | with 128 remembered a new request makes the document forget exactly one, the oldest that is not the connection and owns nothing any more |
| `BrokerEffects.ClickLocates` | apps/web/src/browser-permissions.tsx:392-456 | a click on allow begins the lookup if and only if there is a provider that does not throw and fewer than 16 calls in flight, and the watch if and only if fewer than 8 are watched; otherwise the request is answered that it failed |
| `BrokerEffects.ApprovedLocates` | apps/web/src/browser-permissions.tsx:392-456 | the same of a location request that is approved when it arrives |
| `BrokerEffects.PromptOpensExactly` | apps/web/src/browser-permissions.tsx:684-726 | a click on allow opens the native prompt if and only if all it is for find room and the browser does not throw; otherwise each is answered that it failed; either way exactly those leave the queue |
| `BrokerEffects.DenySays` | apps/web/src/browser-permissions.tsx:825-840 | a click on deny answers every request of its kind and document that it was denied, in order, and no other |
| `BrokerEffects.SiblingsLeaveExactly` | apps/web/src/browser-permissions.tsx:597-647 | a settled clipboard call takes its siblings off the queue if and only if it is handed over and its "always" was saved while the page was active |
| `BrokerEffects.ShowBeginsExactly` | apps/web/src/browser-permissions.tsx:483-594 | a show is refused without native permission or room, is displayed at once if the page can construct it and a slot is free, and otherwise goes on if and only if there is a worker |
| `BrokerEffects.ShowEndsExactly` | apps/web/src/browser-permissions.tsx:483-594 | while its document lives and it is not cancelled, a show goes on without a word, or ends with one answer: shown, and the notification is kept, or not, and none is kept that was not there |
| `BrokerEffects.ShowGoesOnExactly` | apps/web/src/browser-permissions.tsx:483-594 | when each continuation of a show goes on, and when one that ends answers that it is shown |
| `BrokerEffects.ReconciledExactly` | apps/web/src/browser-permissions.tsx:459-482 | exactly the completed notifications that the browser no longer shows go, and each is told closed unless cancelled |
| `BrokerEffects.CloseSays` | apps/web/src/browser-permissions.tsx:927-955 | a close that is heard tells a shown notification closed, once, and is acknowledged |
| `BrokerEffects.WatchTells` | apps/web/src/browser-permissions.tsx:427-453 | each event of a native watch is told, and only a denial ends the watch |
| `BrokerEffects.NoticeTells` | apps/web/src/browser-permissions.tsx:527-551 | each event of a foreground notification is told, and it goes when it closes or fails |
| `BrokerFrames.PromptQueue` | apps/web/src/browser-permissions.tsx:727-772 | settled consent appends exactly the siblings its guard names, in order, to an otherwise unchanged queue |
| `BrokerFrames.QueueLimitExactly` | apps/web/src/browser-permissions.tsx:763 | a step keeps the queue within 16 if and only if it does not put back more siblings than fit |
| `BrokerTraps.QueueExceedsItsLimit` | apps/web/src/browser-permissions.tsx:763 | a reachable queue of 17 |
| `BrokerTraps.RunningLookupAnswersAfterDenial` | apps/web/src/browser-permissions.tsx:392-430 | a reachable document that denies geolocation and still hands over a position |
| `BrokerCancellation.TidyExactly` | apps/web/src/browser-permissions.tsx:483-594 | a step leaves every cancelled id in flight if and only if it does not end the withdrawal of a notification closed again meanwhile |
| `BrokerCancellation.RoomUnlessClosedTwice` | apps/web/src/browser-permissions.tsx:884-905 | in every run without such a second close, a fresh request always finds room |
| `BrokerCancellation.CancellationStaysBehind` | apps/web/src/browser-permissions.tsx:571 | a reachable state with a cancelled id and no work at all |
| `BrokerAnswers.RequestStays` | apps/web/src/browser-permissions.tsx:845-990 | a message of the connected document never ends it and is answered to no other client |
| `BrokerAnswers.HearsConsent` | apps/web/src/browser-permissions.tsx:667-682 | a new request adds at most itself to what waits, and is refused for a full queue only when 16 already wait |
| `BrokerAnswers.HearsCancel` | apps/web/src/browser-permissions.tsx:908-975 | after a clear, close or cancel its target waits neither in the queue nor in an open prompt |
| `BrokerReplies.AnsweredExactly` | apps/web/src/browser-permissions.tsx:305-975 | in every run of a document that remembers it, a lookup, permission request or clipboard call was answered exactly once, unless it still waits or runs, or a message cancelled it before; then it was not answered |
| `BrokerReplies.StepAccounts` | apps/web/src/browser-permissions.tsx:305-975 | every step, from any state of the invariant, keeps that account: answers given, and one more while the request is open |
| `BrokerOutcomes.CancelMeets` | apps/web/src/browser-permissions.tsx:908-975 | a clear, close or cancel of a request of its own kind stops it for good and is acknowledged if and only if anything of it waits, runs, watches or shows; otherwise it is told so and nothing changes |
| `Broker.PermissionBroker.OnMessage` | apps/web/src/browser-permissions.tsx:845-975 | the hook's message callback makes the broker's step, keeps the invariant and the conserved slots, starts no denied work, and begins native work only for an approved request |
| `Broker.PermissionBroker.OnAllow` | apps/web/src/browser-permissions.tsx:775-822 | the same of a click on allow, over its three ways to go on; what it begins is the head of the queue or, with a saved "always", its siblings |
| `Broker.PermissionBroker.OnDeny` | apps/web/src/browser-permissions.tsx:825-840 | the same of a click on deny |
| `Broker.PermissionBroker.OnPrompt` | apps/web/src/browser-permissions.tsx:727-772 | the same when a native notification prompt settles |
| `Broker.PermissionBroker.OnLocation` | apps/web/src/browser-permissions.tsx:392-430 | the same when a native lookup settles |
| `Broker.PermissionBroker.OnCopied` | apps/web/src/browser-permissions.tsx:597-647 | the same when a native clipboard call settles, with its siblings |
| `Broker.PermissionBroker.OnDisplayed` | apps/web/src/browser-permissions.tsx:483-594 | the same after a service worker showed a notification, which may have been closed meanwhile |
| `Broker.PermissionBroker.OnWithdrawn` | apps/web/src/browser-permissions.tsx:560-580 | the same at the end of a withdrawal |
| `Broker.PermissionBroker.OnSettled` | apps/web/src/browser-permissions.tsx:459-594 | the same after the last reconciliation of a shown notification |
| `Broker.PermissionBroker.OnFrameLoaded` | apps/web/src/browser-permissions.tsx:366-375 | the same when the frame loads, which keeps a document that connected since the last load |
| `ShimTheorems.LimitsHold` | apps/server/src/project-browser-permissions.ts:147-210 | in every run, however callbacks call back in, at most 32 entries, 16 awaiting consent and 8 watches are pending |
| `ShimTheorems.OutcomesAreAccounted` | apps/server/src/project-browser-permissions.ts:229-254 | in every run each lookup and promise is told at most one outcome, and those not told are exactly those still retained |
| `ShimTheorems.DisconnectTellsAll` | apps/server/src/project-browser-permissions.ts:174-187 | once a disconnect has run its course every outcome was told exactly once |
| `ShimTheorems.DisconnectEnds` | apps/server/src/project-browser-permissions.ts:174-187 | a disconnect comes to its end after one callback for each retained entry |
| `ShimTheorems.DeadlinesAreArmed` | apps/server/src/project-browser-permissions.ts:188-210 | in every run each lookup and promise not yet told has its deadline armed, or is about to be told by the disconnect under way |
| `ShimTheorems.DeadlineSettles` | apps/server/src/project-browser-permissions.ts:196-202 | the deadline of any retained lookup or promise tells its outcome once and frees its entry |
| `ShimTheorems.ResponseSettlesExactly` | apps/server/src/project-browser-permissions.ts:229-254 | a response tells one outcome if and only if it is of this session, names a retained lookup or promise and is well-formed for it; any other leaves all of them as they were |
| `ShimTheorems.AdmittedExactly` | apps/server/src/project-browser-permissions.ts:188-210 | a lookup or promise is retained and posted if and only if the session is connected, fewer than 32 requests and fewer than 16 that await consent are pending, and posting works; otherwise it fails at once |
| `ShimTheorems.WriteAdmittedExactly` | apps/server/src/project-browser-permissions.ts:384-403 | the same of a rich write, which is retained unposted while its data is read |
| `ShimTheorems.WatchAdmittedExactly` | apps/server/src/project-browser-permissions.ts:288-308 | the same of a watch, of which fewer than 8 may be pending |
| `ShimTheorems.ShowAdmittedExactly` | apps/server/src/project-browser-permissions.ts:684-752 | the same of a notification, which must be permitted |
| `ShimTheorems.PermissionIsTold` | apps/server/src/project-browser-permissions.ts:643-837 | in every run the notification permission that the page sees is what the parent told last in this session |
| `ShimCancels.ParentIsToldExactly` | apps/server/src/project-browser-permissions.ts:105-330 | in every run, the parent is told to forget a posted lookup, watch, permission request or clipboard call if and only if its entry has gone, no answer ended it, and posting worked when it went: cleared watches, deadlines and disconnects all tell |
| `ShimCancels.NotificationsAreClosed` | apps/server/src/project-browser-permissions.ts:684-774 | in every run a posted notification is retained, or the parent was told to close it, or an answer ended it, or it went while posting did not work, or it was closed while the table was full |
| `ShimCancels.CloseTellsExactly` | apps/server/src/project-browser-permissions.ts:754-773 | close() tells the parent if and only if it is the first, the session is connected, posting works and the table has room |
| `ShimCancels.GoesExactly` | apps/server/src/project-browser-permissions.ts:169-330 | a retained lookup, watch, permission request or clipboard call goes if and only if the page clears the watch, an answer of this session ends it, its armed deadline fires, its disconnect comes to it, or what it writes does not fit or cannot be posted |
| `ShimLife.SeversExactly` | apps/server/src/project-browser-permissions.ts:120-187 | a connected session ends if and only if the page is left, or its connection is refused or not answered in time; one that ended begins again if and only if the page comes back from the cache while posting works |
| `ShimLife.LeavesAndReturns` | apps/server/src/project-browser-permissions.ts:120-139 | leaving the page tells the parent whenever posting works, and a return connects under a new name |
| `ShimLife.NotificationsExactly` | apps/server/src/project-browser-permissions.ts:684-774 | in every run, except while a disconnect is under way, the shim keeps a notification for its events if and only if its request is retained |
| `ShimLife.AcknowledgesExactly` | apps/server/src/project-browser-permissions.ts:256-285 | an answer that does not end a watch or notification acknowledges it, which clears its deadline, if and only if it names no other and is well-formed; otherwise it changes nothing |
| `ShimNumbers.NumberNamesWatch` | apps/server/src/project-browser-permissions.ts:295-322 | in every run with at most 2147483647 calls of watchPosition, clearWatch finds the watch that was given the number and no other |
| `ShimNumbers.ApartExactly` | apps/server/src/project-browser-permissions.ts:301 | a step keeps the numbers of retained watches apart if and only if it does not retain a new watch under another's number |
| `ShimNumbers.NumbersCollide` | apps/server/src/project-browser-permissions.ts:301 | a run of one call more after which two retained watches have one number |
| `ShimTheorems.WritePostsWhilePending` | apps/server/src/project-browser-permissions.ts:587-640 | materialized data posts nothing, or exactly one write whose entry was retained and not yet posted |
| `ShimTheorems.RichWritesPostOnce` | apps/server/src/project-browser-permissions.ts:587-640 | in every run no rich write is posted twice, and each is posted only by the end of its own reading, while retained |
| `ShimWire.NextCarries` | apps/server/src/project-browser-permissions.ts:188-210 | whatever the parent may still count after hearing a step's messages is still counted by the shim |
| `Shim.PermissionShim.OnCall` | apps/server/src/project-browser-permissions.ts:288-773 | every call of the application makes the shim's step and keeps its invariant, limits and account of outcomes |
| `Shim.PermissionShim.OnResponse` | apps/server/src/project-browser-permissions.ts:781-792 | an answer is taken only by the retained entry it names, and the account of outcomes is kept |
| `Shim.PermissionShim.OnDeadline` | apps/server/src/project-browser-permissions.ts:196-204 | a deadline keeps the invariant, the limits and the account |
| `Shim.PermissionShim.OnMaterialized` | apps/server/src/project-browser-permissions.ts:587-640 | the end of reading a rich write posts, fails or forgets it, and keeps the invariant |
| `Shim.PermissionShim.OnPageHide` | apps/server/src/project-browser-permissions.ts:120-187 | leaving the page starts a disconnect that retains every entry until it is told |
| `Shim.PermissionShim.OnPageShow` | apps/server/src/project-browser-permissions.ts:127-139 | a return from the back-forward cache starts a new document under a new name |
| `Shim.PermissionShim.OnReturn` | apps/server/src/project-browser-permissions.ts:169-187 | what is left to do after an application callback keeps the invariant, whatever the callback did |
| `Composition.QueueLimitIsUnreachable` | apps/web/src/browser-permissions.tsx:678 | in every run of shim, channels and broker with no late close and at most 54 notifications of a document closed twice, the page is never told that too many requests are pending; what waits in the parent after all messages under way is counted by the page, which counts at most 16 |
| `Composition.LateCloseForgets` | apps/server/src/project-browser-permissions.ts:754-773 | a close with a full table posts nothing and the shim stops counting a request that the parent may still hold |
| `CompositionTraps.LateCloseIsRefused` | apps/server/src/project-browser-permissions.ts:764 | a reachable system in which that ends in the broker's refusal, though no notification was closed by two messages |
| `Messages.RequestRoundTrip` | apps/web/src/browser-permissions.tsx:132-227 | every message of every shim operation is accepted by the parent's parser with the same ids, operation and payload |
| `Messages.NothingHitchhikes` | apps/web/src/browser-permissions.tsx:168-227 | a message the parser accepts carries no field of another operation |
| `Messages.ParsedIsBounded` | apps/web/src/browser-permissions.tsx:168-227 | whatever a preview posts, an accepted message names its session and request by identifiers, and its payload is of its operation's kind and within every bound |
| `Messages.AbsentLocationOptions` | apps/web/src/browser-permissions.tsx:132-147 | location options that are undefined or null read as if left out, and none as an empty record |
| `Messages.AbsentNoticeOptions` | apps/web/src/browser-permissions.tsx:148-167 | notification options that are undefined read as if left out, and none as an empty record |
| `Wire.ShimParse` | apps/server/src/project-browser-permissions.ts:512-553 | the shim's nested parser accepts exactly bounded items, and returns them |
| `Wire.ParentParse` | apps/web/src/browser-clipboard.ts:30-61 | the parent's own validator, with other checks in another order, accepts exactly the same nonempty items |
| `Wire.ParsedIsSendable` | apps/web/src/browser-clipboard.ts:30-61 | items that either validator accepts are within all bounds, so they could be sent as they are |
| `Wire.ItemsRoundTrip` | apps/web/src/browser-clipboard.ts:30-61 | rich data that one side may send is accepted by the other and comes out as it went in |
| `Wire.PerformRead` | apps/web/src/browser-clipboard.ts:70-131 | the items a rich read resolves to are those of the native clipboard, and the shim accepts them |
| `Wire.SerializeWrite` | apps/server/src/project-browser-permissions.ts:404-439 | the items a rich write posts are those it was given, and the parent accepts them |
| `Replies.ReadThrough` | apps/server/src/project-browser-permissions.ts:526-586 | the parent's read followed by the shim's parser yields exactly the native items, or nothing on both sides |
| `Replies.TextThrough` | apps/server/src/project-browser-permissions.ts:555-578 | a text read reaches the page unchanged if and only if it is short enough |
| `Replies.RepliesAreTold` | apps/server/src/project-browser-permissions.ts:526-640 | no parser of the shim takes another operation's reply for its own |
| `PaneStream.ScreenIsExact` | apps/server/src/app.ts:3545-3562 | in every run, while open, not seeding and not dropped, the browser shows exactly the whole output if and only if the last reply was the first or a reset was announced since the one before |
| `PaneStream.LoneCapturesAreExact` | apps/server/src/app.ts:3551-3562 | with no capture in flight, that holds if and only if the last capture was asked for alone, and by a reset or as the very first |
| `PaneStream.OverlapMixes` | apps/server/src/app.ts:3639 | a run in which a reset during a seed leaves a wrong screen |
| `PaneStream.EarlyResetMixes` | apps/server/src/app.ts:3562 | a run in which a first seed after a reset leaves a wrong screen |
| `PaneStream.RecoveryIsNeverStuck` | apps/server/src/app.ts:3545-3562 | in every run, dropping means that 64 KiB which the browser received are unacknowledged; the count stays under 256 KiB and one chunk and never exceeds what is owed |
| `PaneStream.ChunkIsSentExactly` | apps/server/src/app.ts:3545-3550 | on an open stream that is not seeding a chunk is sent as one output frame, and counted, if and only if fewer than 256 KiB are counted; otherwise it is dropped |
| `PaneStream.DroppingExactly` | apps/server/src/app.ts:3545-3562 | in every run output is being dropped if and only if, since the last capture was asked for, a chunk came while at least 256 KiB were counted, all of them sent and not acknowledged |
| `PaneStream.CountsExactly` | apps/server/src/app.ts:3687-3693 | in every run the count is the output sent since the last capture was asked for and not acknowledged, and less only after an acknowledgement of older bytes |
| `PaneStream.RecoversExactly` | apps/server/src/app.ts:3687-3693 | an acknowledgement asks for a fresh capture if and only if output is being dropped and less than 64 KiB stays counted; otherwise it only counts down |
| `PaneStream.PaneSocket.OnOutput` | apps/server/src/app.ts:3545-3550 | the forwarding callback makes its step; afterwards the screen is exact precisely when the callbacks so far say so, and recovery is possible |
| `PaneStream.PaneSocket.OnCapture` | apps/server/src/app.ts:3551-3561 | the same when a capture replies |
| `PaneStream.PaneSocket.OnReseed` | apps/server/src/app.ts:3639 | the same when the pane resets, at any time |
| `PaneStream.PaneSocket.OnAck` | apps/server/src/app.ts:3687-3693 | the same for an acknowledgement of any size |
| `PushInvariant.TurnExactly` | apps/server/src/push-service.ts:131-148 | a queued delivery may start if and only if every earlier one of its (topic, endpoint) is done |
| `PushService.AttemptsNeverOverlap` | apps/server/src/push-service.ts:131-179 | in every run at most one delivery of a (topic, endpoint) is being attempted or waits to retry |
| `PushService.AttemptsAreOrdered` | apps/server/src/push-service.ts:131-179 | in every run attempts of a (topic, endpoint) start in the order of registration, at most three for each |
| `PushService.SupersededStartsNothing` | apps/server/src/push-service.ts:151-179 | a step starts at most one attempt, never for a superseded event |
| `PushService.EveryEndpointIsQueued` | apps/server/src/push-service.ts:95-128 | a registered event has a position in the queue of each endpoint of its snapshot |
| `PushService.NewestIsTried` | apps/server/src/push-service.ts:95-179 | in every run an event that finishes unsuperseded was attempted at each endpoint of its snapshot |
| `PushService.OverExactly` | apps/server/src/push-service.ts:151-179 | in every run a delivery is stale if and only if its provider answered that the endpoint is gone, and over if and only if it was accepted, rejected, failed for good, was given up while it waited or found a newer event |
| `PushService.BacksOffExactly` | apps/server/src/push-service.ts:151-179 | in every run a delivery waits to be repeated if and only if its first or second attempt failed in a way that allows it, no newer event had come by then, and nothing ended the wait |
| `PushService.StaleExactly` | apps/server/src/push-service.ts:95-128 | in every run what an event hands to `prune` is exactly the endpoints that its providers answered are gone |
| `PushService.PruneExactly` | apps/server/src/push-service.ts:221-229 | when an event prunes, exactly those registrations of its snapshot go whose provider answered that they are gone and that were not replaced |
| `PushService.QueueIsNeverStuck` | apps/server/src/push-service.ts:131-148 | in every run the front of an unfinished queue can go on |
| `PushService.MarkedExactly` | apps/server/src/push-service.ts:95-128 | in every run a topic is marked with an event if and only if that is its newest and is unfinished |
| `PushService.QueuedExactly` | apps/server/src/push-service.ts:131-148 | in every run a (topic, endpoint) has a queue if and only if a delivery of it is not over |
| `PushService.Prune` | apps/server/src/push-service.ts:221-229 | exactly the rejected registrations go, and never a replacement made meanwhile |
| `PushService.StoreSerializes` | apps/server/src/push-service.ts:213-242 | in every run the file is the effect of the successful mutations in the order they were invoked, and a snapshot that of those invoked before it |
| `PushService.FileHoldsExactly` | apps/server/src/push-service.ts:213-242 | in every run, whatever fails, the file holds a registration if and only if it entered, or was there at the start, and no successful mutation since replaced or rejected it |
| `PushService.StoreAdvancesExactly` | apps/server/src/push-service.ts:213-242 | an operation is over after its write, successful or not; a snapshot and a failed read are over at once |
| `PushService.Service.OnNotify` | apps/server/src/push-service.ts:95-128 | registering makes its step and keeps the queues' invariant |
| `PushService.Service.OnTurn` | apps/server/src/push-service.ts:131-148 | the same when a delivery's turn comes |
| `PushService.Service.OnAnswer` | apps/server/src/push-service.ts:151-179 | the same when the provider answers |
| `PushService.Service.OnFinish` | apps/server/src/push-service.ts:95-128 | an event that finishes removes exactly the endpoints that were answered to be gone in the run so far |
| `Coordinator.WaitingOrUnread` | apps/server/src/notifications.ts:125-205 | in every run no agent is both waiting and unread, and either means finished |
| `Coordinator.StateRefinesTrace` | apps/server/src/notifications.ts:125-205 | in every run state, pending turn and unread turn of every agent are what the trace of events says |
| `Coordinator.FinishedExactly` | apps/server/src/notifications.ts:133-205 | a finished turn is announced if and only if its timer fires before another observation, its view, retirement or stop |
| `Coordinator.QuestionsExactly` | apps/server/src/notifications.ts:101-118 | a question is announced if and only if an agent known in another state is seen with one |
| `Coordinator.ObservationAsks` | apps/server/src/notifications.ts:53-55 | an observation announces a question if and only if the agent was known in another state and asks, or is finished with a question in its latest message |
| `Coordinator.AnnouncedOnce` | apps/server/src/notifications.ts:133-167 | in every run no turn is announced twice |
| `Coordinator.AgentNotificationCoordinator.OnObserve` | apps/server/src/notifications.ts:133-167 | after an observation the maps are those of the longer trace and the messages are exactly those the trace asks for |
| `Coordinator.AgentNotificationCoordinator.OnTimer` | apps/server/src/notifications.ts:150-163 | the same when a timer fires |
| `Coordinator.AgentNotificationCoordinator.OnView` | apps/server/src/notifications.ts:180-185 | the same when a turn is viewed |
| `Coordinator.AgentNotificationCoordinator.OnRetain` | apps/server/src/notifications.ts:188-197 | the same when agents are retired |
| `Coordinator.AgentNotificationCoordinator.OnStop` | apps/server/src/notifications.ts:200-205 | the same when the coordinator stops |
| `Vapid.StoreIsWhole` | apps/server/src/push-vapid.ts:115-138 | across failures, crashes and power losses, a store that was absent is never seen half written or with a broken pair |
| `Vapid.AgreementExactly` | apps/server/src/push-vapid.ts:141-165 | a step keeps all calls in agreement with the store if and only if it is no power loss that takes the name away after a call has returned |
| `Vapid.AllCallsAgree` | apps/server/src/push-vapid.ts:141-165 | in every run without such a loss, of any number of processes, all successful calls return the same pair, the one in the store |
| `Vapid.FaultlessCallsLoad` | apps/server/src/push-vapid.ts:115-165 | in every run in which nothing fails, of any number of processes, each step brings its call nearer to the end, and the call ends only by returning the pair in the store |
| `Vapid.CallsThrowExactly` | apps/server/src/push-vapid.ts:115-165 | in every run, whatever fails, a call that ends throws if and only if a step of it failed other than taking away its temporary name, or it found no store or a broken one; otherwise it returns the pair it read |
| `Vapid.CallsEndExactly` | apps/server/src/push-vapid.ts:115-165 | the steps at which a call ends |
| `Vapid.SynchronizedStays` | apps/server/src/push-vapid.ts:79-138 | once one process has synchronized the directory, nothing takes the store away any more |
| `Vapid.LostEntryAllowsAnyPair` | apps/server/src/push-vapid.ts:115-165 | from every state in which such a loss is possible, it can happen and a later call can then return any valid pair |
| `Vapid.StoreIsNeverReplaced` | apps/server/src/push-vapid.ts:115-138 | an existing store keeps its content whatever it is, power losses included, and broken content makes every call fail |
| `Vapid.StoreIsSetOnce` | apps/server/src/push-vapid.ts:115-138 | from the moment it exists the store names the same file with the same content if and only if no power loss takes its name away |
| `Vapid.LostEntryDisagrees` | apps/server/src/push-vapid.ts:115-138 | for any two valid pairs a run with a power loss in which two calls return one each |
| `Chunks.VerdictIsFinal` | apps/server/src/project-proxy.ts:554-573 | no later byte changes a verdict |
| `Chunks.VerdictOfHeader` | apps/server/src/project-proxy.ts:554-573 | a complete header within the budget gets the verdict of its status line, whatever follows |
| `Chunks.SwitchesExactly` | apps/server/src/project-proxy.ts:554-573 | the headers that switch protocols are those that begin with HTTP/1.0 or HTTP/1.1, a space and 101 as a whole word |
| `Chunks.Scan` | apps/server/src/project-proxy.ts:554-573 | the scanner's verdict depends on the concatenated bytes only |
| `Chunks.HandshakeScanner.Inspect` | apps/server/src/project-proxy.ts:554-573 | after every chunk the verdict is that of all bytes received, and a verdict once given stays |
| `Chunks.BoundedResponse` | apps/server/src/instance-status.ts:92-119 | a body is accepted if and only if its declared and its real length fit, however split, and reading stops at the first chunk beyond |
| `Chunks.UpgradeSlots.Upgrade` | apps/server/src/project-proxy.ts:530-552 | an upgrade is admitted if and only if both limits leave room, counted by the open connections |
| `Chunks.UpgradeSlots.Release` | apps/server/src/project-proxy.ts:544-551 | releasing frees the connection's slot once, however often it is called |
| `KeyDispatch.SendNeedsTheLeaderTwice` | apps/web/src/key-dispatch.ts:53-100 | in every run a key is sent through only when the key before was the same leader |
| `KeyDispatch.TimerExactlyWhilePending` | apps/web/src/key-dispatch.ts:27-33 | in every run the deadline runs if and only if something is pending |
| `KeyDispatch.RepeatEndsAsRoot` | apps/web/src/key-dispatch.ts:72-82 | a key that ends a repeat has the verdict of the root table, and every later state is as after a reset just before it |
| `KeyDispatch.TableExactly` | apps/web/src/key-dispatch.ts:53-100 | in every run a table waits for its key if and only if its leader was the last key, and it repeats if and only if only repeatable keys of it came since, one at least |
| `KeyDispatch.SendExactly` | apps/web/src/key-dispatch.ts:53-100 | in every run a key is sent through if and only if the key before was the same leader, of a table that neither binds it nor has it in conflict |
| `KeyDispatch.PassExactly` | apps/web/src/key-dispatch.ts:53-100 | a key passes on as ordinary input if and only if it is a bare modifier, or falls to the root table without conflict and is unbound or bound to an action that declines |
| `KeyDispatch.QuestionExactly` | apps/web/src/key-dispatch.ts:53-107 | in every run a question is pending if and only if an event opened it, possibly the action of a key, and nothing ended it since |
| `KeyDispatch.KeyDispatcher.OnKey` | apps/web/src/key-dispatch.ts:53-100 | the handler's verdict and variables are those of the events so far, also when the action it runs opens a question |
| `Scheduling.PollsSafely` | apps/web/src/client-scheduling.ts:1-49 | in every run tasks never overlap, at most one timer is armed, and without a task it is armed if and only if the page is polled: not stopped, and visible or polled in the background |
| `Scheduling.TaskStartsExactly` | apps/web/src/client-scheduling.ts:1-49 | a task starts if and only if the timer fires or the page shows up while none runs, or one ends that was asked for again, on a page that is polled |
| `Scheduling.AskedAgainExactly` | apps/web/src/client-scheduling.ts:10-38 | while a task runs, another is asked for if and only if the timer fires or the page shows up, and it is visible |
| `Scheduling.VisibilityPoller.OnFinish` | apps/web/src/client-scheduling.ts:26-33 | the end of a task keeps the poller safe |
| `Scheduling.VisibilityPoller.OnVisibility` | apps/web/src/client-scheduling.ts:35-38 | the same when the page's visibility changes |
| `Scheduling.DeriveCoalesces` | apps/server/src/app.ts:3573-3599 | in every run derives never overlap, and a later derive with its force flag follows every request, or one that runs will be followed by it |
| `Scheduling.DerivesAreRequested` | apps/server/src/app.ts:3573-3599 | in every run a derive begins only for a request, and carries force if and only if a request since the derive before it did |
| `Scheduling.DeriveQueue.OnRequest` | apps/server/src/app.ts:3573-3599 | a request keeps derives from overlapping, and an idle queue has followed every request |
| `Scheduling.DeriveQueue.OnDerived` | apps/server/src/app.ts:3595-3599 | the same when a derive ends |

`BrokerFrames.LookupAnswersExactly`, `BrokerEffects.ConnectMeets`, `BrokerTheorems.AlwaysRoom`,
`BrokerTheorems.DenyClears`, `Coordinator.FiringDelivers`, `Coordinator.RetainLeavesNothing`,
`PaneStream.AckingAllReseeds` and `Scheduling.AskedAgain` are facts about one step that stand beside these results
and support them.

## Left out

- Grants, Vapid, Composition: transition relations on values, because their point is the interleaving of several
  tabs, processes and windows; the mutable variables of one call are the fields of its frame.
- PermissionBroker: native slots that other previews take and give back are steps of the model and no methods of
  the class.
- Composition.QueueLimitIsUnreachable: assumes that the page closes no notification late and that no document closes
  more than 54 of them twice (see Findings), and that posting a plain message does not throw.
- PaneStream.ScreenIsExact: output that arrives between a capture's reply and the end of `seeding`, which the source
  admits it loses, is not modelled, nor is a capture that fails and sends an empty seed.
- ShimTheorems.WritePostsWhilePending: the awaits for single representations of a rich write are one step, which says
  whether the data fits and can be cloned.
- Several listeners of one notification event are one application callback; synthetic events are left out.
- Titles, bodies and tags of native notifications, and the wording of errors.
- `localStorage` is atomic call by call; its weak memory across processes is left out.
- React state, rendering, DOM, focus; Fastify routes, tmux, HTTP, web-push, JSON, TextDecoder, cryptography, URL and
  regular expression engines. Key table lookup is a parameter.
- The note flight guards and the update advisor of apps/server/src/app.ts, and the poller around a peer's status:
  they would only add easy members.
- Liveness is stated as a step that can be taken, or as a count that runs out, never in time.
