# Verified models of the agent and hub components that carry protocol and encoding rules

This project models, in Dafny, the parts of the repository that hold state over time or that
read and write text under rules, and proves what callers rely on:

- the shared-variable **reload worker** (`ReloadWorkers`, `ReloadProtocol`, `ReloadTheorems`,
  `ReloadLiveness`, `ReloadFairness`, `ReloadProgress`, `ReloadRequests`, `ReloadLookups`,
  `ReloadAnswers`): the fields and critical sections as a class with methods in place, and a state
  machine that interleaves the worker goroutine with any number of `Enqueue`, `EnqueueApp` and
  `Forget` calls;
- the **index sync** retry machine and the **drift push** (`IndexSyncs`, `IndexSyncRuns`, `VarsSync`);
- the agent's **snapshot**: validation, the crash-safe store, and resolving it for one server
  (`Snapshots`, `SnapshotStore`, `SnapshotRuns`, `SnapshotMeaning`, `Resolve`);
- the **scanners and encodings**: compose variables (`VarRef`), storage and backup variables
  (`StorageVars`), the catalog digest's byte stream (`Digest`);
- **metrics**: the alert window (`AlertWindow`) and the tiered rollup (`Rollup`, `RollupOrder`,
  `RollupTheorems`, `RollupMeaning`);
- the single-flight **process list** (`ProcessLists`), the **JWKS cache** (`Jwks`, `JwksHeader`,
  `JwksRuns`), the **rollout scope** (`RolloutScope`) and the **domain winner** (`Domains`).

`Common` and `Order` hold what they share: options, letter case, decimal numbers, Go's order on
strings, insertion sort and sorted key lists.

## How it is modelled

Objects the source updates in place are classes; loops are methods with invariants; each method is
proved against a function on values, or against a declarative predicate, and the theorems are about
those. Concurrency is a state machine with one step per critical section, channel operation or
outside answer, and the theorems are about every reachable state of every interleaving; `Run`, `drain`,
`resolve`, `candidates`, `reloadOne` and `deliver` are places of the worker in that machine rather than
one method each, because calls come in between their parts. Answers of
the outside world (`ReloadCandidates`, `AppExists`, `ReloadSharedVars`, `list`, the JWKS fetch, file
operations, decryption) and clock readings are arbitrary parameters. Map iteration picks an arbitrary
element. Time is in whole seconds since the zero time, in the JWKS cache in nanoseconds; averages are
exact reals and the coverage constant 0.8 is 4/5.

## Where the code does less than its documentation, or than one would expect

Each of these is a theorem; where it says "exactly", the theorem is an if-and-only-if over all inputs.

- Reload worker: a waiter is seen to only until the context ends; then the queue is abandoned and the
  final sweep answers. A waiter registered after that sweep is answered by a `Forget` of its app or
  never (`LateWaiters`, `LateWaiterUnanswered`), so "receives the outcome" does not reach past `Run`.
  Before it, every waiter is answered as long as the schedule is fair (`EveryWaiterIsAnswered`); `Run`'s
  select must not prefer the wake channel for ever once the context has ended.
- Index sync: a purge that drops a server's pending sync while its attempt is in flight lets the
  next online event open a second window, exactly then; over a whole run there are at most one more
  in flight than such purges, and there can be that many (`PurgeOpensSecondWindow`, `InFlightBound`,
  `InFlightReached`).
- Alert window: the 60-point buffer decides as the whole history would exactly for windows of at most
  an hour (`BufferIsEnoughIff`).
- Rollup: staging keeps `Samples` exactly when no stage is empty; keeps a field's average for all
  values exactly when the parts that carry it carry it on the same share of their samples; and keeps
  the unavailable share exactly when no stage is empty or the reports sum to 0 (`SamplesCompose`,
  `AveragesComposeIff`, `FlagComposes`). The unavailable share stays below its peak, for all reports at
  most their own peaks, exactly when all rows or none report it; for the reports samples make it
  always does (`FlagBelowPeakIff`, `FairFlagClimbs`).
- Snapshot store: a process whose first read of the file fails starts from nothing, and exactly then
  answers, or takes, a snapshot older than promised (`UnreadableFileForgets`,
  `UnreadableFileTakesOlder`, `UnreadableReadForgets`). The error of the directory sync is ignored:
  after an answer a power loss can make the store forget it exactly when the file is newer than at
  the last directory sync that succeeded (`PowerLossForgets`, `UnsyncedRenameLost`).
- Storage variables: the parser accepts lower-case letters, hyphens and the two other characters that
  fold to an ASCII letter too, so printing what was parsed gives the variable back exactly for variables of `[A-Z0-9_]` (`PrintParsed`).
- The storage scanner finds more than compose interpolates: `FoundIsComposeRef` says exactly which of
  its matches are compose references.
- Rollout scope: a merge can want a pair neither scope wanted, exactly a server of one with a name of
  the other (`MergeWantsExactly`).
- Domain winner: the order of the list does not matter exactly when no two different registrations
  have one lower-case spelling, whatever the letters; validation refuses upper-case names, `Winning` does not
  (`OrderIrrelevantIff`, `ValidOrderIrrelevant`, `SpellingsCompete`).
- JWKS: the throttle keeps a fetch a minute away from a vain one of a call that has ended; calls that
  overlap are not throttled (`VainFetchesThrottled`, `OverlapNotThrottled`).

## Model

| member | source | states |
|---|---|---|
| ReloadWorkers.ReloadWorker.constructor | internal/app/agent/reload_worker.go:91-97 | a new worker has nothing pending, dropped or waiting, and no wake token |
| ReloadWorkers.ReloadWorker.Merge | internal/app/agent/reload_worker.go:101-115 | Enqueue's locked part: named apps join pending and leave dropped; names only without apps; an empty request means all |
| ReloadWorkers.ReloadWorker.Signal | internal/app/agent/reload_worker.go:117-120 | the non-blocking send leaves the one-slot wake channel full, whether or not it was |
| ReloadWorkers.ReloadWorker.Register | internal/app/agent/reload_worker.go:127-132 | EnqueueApp's locked part: the channel goes behind the app's other waiters, nothing else changes |
| ReloadWorkers.ReloadWorker.TakeWaiters | internal/app/agent/reload_worker.go:137-143 | hands over all of the app's waiters, in order, and leaves none |
| ReloadWorkers.ReloadWorker.MarkForgotten | internal/app/agent/reload_worker.go:153-158 | Forget's locked part: the app leaves pending, and is dropped only while a pass is busy |
| ReloadWorkers.ReloadWorker.BeginPass | internal/app/agent/reload_worker.go:187-190 | a drain marks the worker busy and touches nothing else |
| ReloadWorkers.ReloadWorker.EndPass | internal/app/agent/reload_worker.go:191-196 | the end of a drain clears busy and dropped together |
| ReloadWorkers.ReloadWorker.Take | internal/app/agent/reload_worker.go:226-239 | hands over the whole pending batch or reports none; waitedOnly exactly when the batch names only apps someone waits for |
| ReloadWorkers.ReloadWorker.TakeAllWaiters | internal/app/agent/reload_worker.go:172-177 | the final sweep takes every waiter at once |
| ReloadWorkers.AddEach | internal/app/agent/reload_worker.go:205-210 | the in-place queue loop adds what AddNew does |
| ReloadWorkers.AddNewKeeps | internal/app/agent/reload_worker.go:205-210 | resolved ids join the queue behind what is there, each once, none lost, and the set stays the queue's elements |
| ReloadProtocol.MovedTo | internal/app/agent/reload_worker.go:137-161 | handing all channels at one place to an empty one keeps every channel at exactly one place |
| ReloadProtocol.FirstAnswered | internal/app/agent/reload_worker.go:146-150 | delivering the first of a list keeps the accounting, and nothing was sent on that channel before |
| ReloadProtocol.AllSwept | internal/app/agent/reload_worker.go:172-181 | the final sweep moves every waiting channel, per app, and loses none |
| ReloadProtocol.OwnedStep | internal/app/agent/reload_worker.go:101-353 | every step of every participant keeps each channel with exactly one owner, or answered |
| ReloadTheorems.AwakeStep | internal/app/agent/reload_worker.go:101-239 | every step keeps a wake-up coming while work is pending |
| ReloadTheorems.WaitsStep | internal/app/agent/reload_worker.go:101-353 | every step keeps each waiter pending, in hand or covered by a call, and a dropped app's waiters covered by a call |
| ReloadTheorems.OutcomesStep | internal/app/agent/reload_worker.go:101-353 | every step keeps each channel's pending answer one that suits its registration |
| ReloadTheorems.EveryState | internal/app/agent/reload_worker.go:101-353 | all of these hold in every state of every interleaving |
| ReloadTheorems.WorkerSendNeverBlocks | internal/app/agent/reload_worker.go:146-150 | in every interleaving the worker only sends on a registered channel nobody sent on: the one-slot send cannot block |
| ReloadTheorems.ForgetSendNeverBlocks | internal/app/agent/reload_worker.go:153-161 | the same for the sends of any Forget call |
| ReloadTheorems.OneOwner | internal/app/agent/reload_worker.go:127-161 | a registered channel has been answered and stands nowhere, or stands once at exactly one place |
| ReloadTheorems.AnswersStand | internal/app/agent/reload_worker.go:146-150 | a given answer is never changed for the rest of the run |
| ReloadTheorems.QueuedOnceDroppedInPass | internal/app/agent/reload_worker.go:187-224 | queued is the set of queue, which has no duplicates; outside a pass nothing is queued or dropped |
| ReloadTheorems.NoLostWakeup | internal/app/agent/reload_worker.go:101-121 | pending work implies a buffered token, a call about to send one, or a worker that consumed one and has not taken yet |
| ReloadTheorems.NobodyStranded | internal/app/agent/reload_worker.go:187-312 | until the context ends each waiter's app is pending, in the worker's hands, or covered by an EnqueueApp or Forget between its sections |
| ReloadTheorems.AsleepMeansAnswered | internal/app/agent/reload_worker.go:165-183 | with no call under way and the worker asleep without a token, nothing is pending and every channel was answered |
| ReloadTheorems.HaltedMeansAnswered | internal/app/agent/reload_worker.go:172-183 | after Run returned, only a channel registered after the final sweep can be unanswered |
| ReloadTheorems.AnswersAreFresh | internal/app/agent/reload_worker.go:317-353 | an answer is about the app registered for, a reload's only reaches those registered before it started, and cancellation is only reported once the context ended |
| ReloadTheorems.WorkerNeverStuck | internal/app/agent/reload_worker.go:165-224 | the worker sleeps with nothing to do, has returned, or has a step to take |
| ReloadTheorems.ForgottenStaysDropped | internal/app/agent/reload_worker.go:153-245 | an app forgotten in a pass stays dropped, and is passed over at its check, until the pass ends or a later Enqueue names it |
| ReloadTheorems.LateWaiters | internal/app/agent/reload_worker.go:123-134 | a channel registered after the final sweep receives nothing but a Forget's answer |
| ReloadTheorems.LateWaiterUnanswered | internal/app/agent/reload_worker.go:123-183 | a run after which every call is over and a channel is never answered |
| ReloadLiveness.StepsDown | internal/app/agent/reload_worker.go:165-353 | every step of the worker lowers a lexicographic rank, however many apps a lookup queues: no drain goes on for ever by itself |
| ReloadLiveness.RestsFrom | internal/app/agent/reload_worker.go:165-353 | every endless run in which only the worker moves reaches a state of rest, asleep or returned |
| ReloadLiveness.EveryoneIsAnswered | internal/app/agent/reload_worker.go:123-183 | left alone by callers before the final sweep, the worker answers everyone registered after finitely many steps, whatever the outside world answers |
| ReloadFairness.StepHelps | internal/app/agent/reload_worker.go:101-353 | whatever call or worker step comes next, each unanswered waiter comes nearer its answer in a lexicographic measure, or stays as near, waiting for the same agent |
| ReloadFairness.AgentCanMove | internal/app/agent/reload_worker.go:101-353 | the agent a waiter waits for, the worker or one call in progress, always has a step to take |
| ReloadFairness.EveryWaiterIsAnswered | internal/app/agent/reload_worker.go:123-183 | in every endless fair run, with calls of all kinds going on for ever, each channel registered before the final sweep receives an answer |
| ReloadRequests.StepTends | internal/app/agent/reload_worker.go:101-353 | an app that is pending or in hand stays so and comes nearer its reload, or stays as near waiting for the same agent, until its reload begins, its lookup fails or leaves it out, it is forgotten, or the context ends |
| ReloadRequests.EveryRequestIsSettled | internal/app/agent/reload_worker.go:99-121 | in every fair run each app an Enqueue names is followed, strictly later, by one of these, also when a reload of it was under way |
| ReloadAnswers.OwesStep | internal/app/agent/reload_worker.go:137-181 | what a channel is about to be sent stays what it will be sent, whatever step comes |
| ReloadAnswers.ReloadAnswered | internal/app/agent/reload_worker.go:317-353 | over every run, whoever waited for a reload and is answered hears of that app and that start: cancelled exactly when the context had ended, else failed exactly when an error came back, else not running exactly when it was skipped, else applied |
| ReloadAnswers.EveryReloadIsTold | internal/app/agent/reload_worker.go:317-353 | in every fair run all who wait for a reload are answered, and so |
| ReloadAnswers.TakeAnswered | internal/app/agent/reload_worker.go:256-310 | a waiter of an app that is gone, or left out by its lookup, hears it was skipped; of one whose lookup failed, that it failed |
| ReloadAnswers.SweepAnswered | internal/app/agent/reload_worker.go:165-174 | who is left to the final sweep hears that the worker stopped |
| ReloadAnswers.ForgetAnswered | internal/app/agent/reload_worker.go:152-161 | who a Forget takes over is answered that the app was deleted |
| ReloadAnswers.PaidAtLast | internal/app/agent/reload_worker.go:146-150 | in every fair run what is owed to a channel is sent to it |
| ReloadProgress.EveryErrandIsSettled | internal/app/agent/reload_worker.go:101-353 | anything that comes nearer with every step, or stays as near waiting for one agent that can move, is brought about in every fair run |
| ReloadLookups.EnqueueAsks | internal/app/agent/reload_worker.go:101-115 | an Enqueue adds to the pending work the apps it names; its names when it has no apps; everything when it has neither; and nothing else |
| ReloadLookups.EveryLookupIsMade | internal/app/agent/reload_worker.go:99-121 | in every fair run an Enqueue without apps is followed, strictly later, by a lookup for all of its names, or for everything when it has none, or the context ends |
| ReloadLookups.FoundAreListed | internal/app/agent/reload_worker.go:267-303 | each app a lookup returns is in the worker's hands at once |
| ReloadLookups.EveryFoundAppIsReloaded | internal/app/agent/reload_worker.go:198-224 | in every fair run each app a lookup returns is later reloaded, or passed over because it was forgotten, or the context ends |
| ReloadLookups.TakenGoes | internal/app/agent/reload_worker.go:226-265 | a batch of apps that all have waiters goes without a lookup; one for everything or for names is looked up as such, any other by its apps |
| ReloadLookups.AppsAreLookedUpToo | internal/app/agent/reload_worker.go:269-281 | after the lookup for everything or the names comes the one for the apps, exactly when the batch names any |
| ReloadLookups.LookupEnds | internal/app/agent/reload_worker.go:281-310 | a failed lookup for the apps leads to an answer for each of them, a successful one to a skip for exactly those nothing returned |
| ReloadLookups.FailedAreNotLeftOut | internal/app/agent/reload_worker.go:285-310 | a failed app counts as seen: it is not answered a second time as left out |
| ReloadLookups.ForgottenIsWithdrawn | internal/app/agent/reload_worker.go:152-161 | a forgotten app is not pending again until an Enqueue names it |
| IndexSyncs.IndexSync.constructor | internal/infra/bootstrap/indexsync.go:76-78 | a new sync has nothing pending |
| IndexSyncs.IndexSync.Claim | internal/infra/bootstrap/indexsync.go:145-153 | claims an attempt only outside the window and within the budget, counts it and opens a 60-second window; only this server's state changes |
| IndexSyncs.IndexSync.Replace | internal/infra/bootstrap/indexsync.go:118-121 | a new state object, distinct from every earlier one, takes the server's place |
| IndexSyncs.IndexSync.Online | internal/infra/bootstrap/indexsync.go:114-126 | a connect event starts a new state when none is pending or its window has passed at the first clock reading, and claims at the second |
| IndexSyncs.IndexSync.Heartbeat | internal/infra/bootstrap/indexsync.go:129-141 | a heartbeat claims what is pending and never creates a state |
| IndexSyncs.IndexSync.CurrentLocked | internal/infra/bootstrap/indexsync.go:156-159 | an attempt is current when its object is the pending one and its number the latest |
| IndexSyncs.IndexSync.DispatchFailed | internal/infra/bootstrap/indexsync.go:161-172 | a dispatch error closes the window of a current attempt and of no other |
| IndexSyncs.IndexSync.Settle | internal/infra/bootstrap/indexsync.go:177-205 | a current result settles the sync unless the agent was not connected with budget left; then the window closes and the one timer starts if none did |
| IndexSyncs.IndexSync.Drop | internal/infra/bootstrap/varssync.go:47-53 | a purge forgets the server's pending sync |
| IndexSyncRuns.EveryState | internal/infra/bootstrap/indexsync.go:113-205 | over every run each pending state mirrors the window of its latest attempt, and all its attempts are its server's |
| IndexSyncRuns.BudgetHolds | internal/infra/bootstrap/indexsync.go:145-205 | every pending state made 1 to 3 attempts, no state ever more, and no state starts two retry timers |
| IndexSyncRuns.NeverTwoInFlight | internal/infra/bootstrap/indexsync.go:143-172 | without a purge of a live attempt, a server never has two attempts in flight |
| IndexSyncRuns.OneWindowThroughout | internal/infra/bootstrap/indexsync.go:143-172 | along such a run every open window is that of its server's current attempt |
| IndexSyncRuns.PurgeOpensSecondWindow | internal/infra/bootstrap/varssync.go:43-55 | a purge and, after any time, its online leave two attempts in flight exactly when one in flight before still is at the claim |
| IndexSyncRuns.SecondWindowReached | internal/infra/bootstrap/varssync.go:43-55 | a run in which that happens |
| IndexSyncRuns.InFlightBound | internal/infra/bootstrap/varssync.go:43-55 | over every run, whatever comes between, a server has at most one attempt in flight more than the purges that dropped one in flight |
| IndexSyncRuns.InFlightReached | internal/infra/bootstrap/varssync.go:43-55 | for every number of such purges a run attains that bound |
| IndexSyncRuns.LateChangesNothing | internal/infra/bootstrap/indexsync.go:156-183 | a result or dispatch error that is not current leaves everything as it was |
| IndexSyncRuns.SupersededForever | internal/infra/bootstrap/indexsync.go:156-183 | an attempt once superseded never counts again, even when a later state reuses its number |
| IndexSyncRuns.ResultSettles | internal/infra/bootstrap/indexsync.go:177-205 | after the result of a current attempt the server is pending exactly when the agent was not connected and fewer than three attempts were made; then its window is closed and a retry timer starts exactly when none had; else no timer starts |
| IndexSyncRuns.SettledStartsNothing | internal/infra/bootstrap/indexsync.go:177-205 | over every run, a server answered with a success, another error or its third bounce starts no attempt until it comes online |
| IndexSyncRuns.DispatchErrorReopens | internal/infra/bootstrap/indexsync.go:161-172 | a dispatch error of a current attempt closes its window and leaves the sync pending |
| IndexSyncRuns.HeartbeatStarts | internal/infra/bootstrap/indexsync.go:129-153 | a heartbeat starts exactly the next attempt of a pending sync whose window has passed and that made fewer than three |
| IndexSyncRuns.OnlineStarts | internal/infra/bootstrap/indexsync.go:114-153 | a connect event starts exactly the first attempt of a new sync, or the next of one whose window has not passed by the first reading but has by the second |
| IndexSyncRuns.OnlyThoseStart | internal/infra/bootstrap/indexsync.go:113-205 | no other step starts an attempt |
| VarsSync.DriftPush.Claim | internal/infra/bootstrap/varssync.go:63-72 | claims a push unless the revision read for the server is the one to push, and then records it |
| VarsSync.DriftPush.Failed | internal/infra/bootstrap/varssync.go:73-82 | a failed sync forgets its claim, unless another revision was claimed since |
| VarsSync.UnclaimedPushes | internal/infra/bootstrap/varssync.go:64-72 | an agent found behind, of a server without a claim, is pushed exactly when the revision is not 0 |
| VarsSync.BehindIsPushed | internal/infra/bootstrap/varssync.go:57-83 | as agents report no negative revision, an agent found behind is pushed unless an earlier push claimed that very revision and no sync of it failed since |
| VarsSync.PushedOncePerRevision | internal/infra/bootstrap/varssync.go:57-83 | two pushes of one revision to one server have a failed sync or a push of another revision between them |
| Digest.Write | internal/domain/catalog/digest.go:16-24 | what is hashed depends on the file map alone, not on map order, and reads back as the files in name order |
| Digest.FieldRoundTrip | internal/domain/catalog/digest.go:11-23 | a reader splits a field off exactly where it was written, whatever follows |
| Digest.DecodeEncode | internal/domain/catalog/digest.go:11-23 | a written stream reads back as its files |
| Digest.EncodeDecode | internal/domain/catalog/digest.go:11-23 | what reads back was written: the reader is the exact inverse |
| Digest.StreamInjective | internal/domain/catalog/digest.go:11-24 | file sets with one stream are one file set |
| Digest.ItoaIsDecimal | internal/domain/catalog/digest.go:16-21 | a length is the one run of digits without a leading zero that writes it |
| Digest.InBytes | internal/domain/catalog/digest.go:11-24 | two files, byte for byte |
| Order.Sort | internal/domain/catalog/digest.go:17-18 | sorted keys do not depend on the order the map gives them |
| Order.LessIs | internal/domain/catalog/digest.go:17-18 | one string is less exactly when it begins the other, or its character at the first place they differ is less |
| VarRef.NameEnd | internal/domain/varref/refs.go:12-23 | the end of the longest identifier at i, or i exactly when none starts there |
| VarRef.FormsAreTheListedOnes | internal/domain/varref/refs.go:25-50 | the byte switch accepts exactly the seven listed brace forms, and calls exactly four of them defaulting |
| VarRef.OneRefPerDollar | internal/domain/varref/refs.go:52-77 | the grammar reads at most one reference at a position |
| VarRef.Scan | internal/domain/varref/refs.go:52-77 | the skipping loop ends and reports exactly the references of the grammar, in order, each once |
| VarRef.AddReferences | internal/domain/varref/refs.go:79-84 | adds exactly the referenced names |
| VarRef.AddUndefaulted | internal/domain/varref/refs.go:86-96 | adds exactly the names with a reference that has no fallback |
| VarRef.LettersAre | internal/domain/varref/refs.go:5-10 | a name starts with an ASCII letter or underscore and goes on with these or digits, and with nothing else |
| VarRef.FoundNamesAreIdentifiers | internal/domain/varref/refs.go:52-77 | every name found is an identifier |
| VarRef.PlainText | internal/domain/varref/refs.go:52-77 | a dollar and an identifier refer to it, whatever ends the name |
| VarRef.BraceText | internal/domain/varref/refs.go:25-77 | in braces an identifier is referred to, with or without fallback, exactly when one of that kind's forms follows |
| VarRef.EscapedText | internal/domain/varref/refs.go:55-77 | a doubled dollar is no reference |
| StorageVars.SplitField | internal/domain/model/storage.go:407-415 | the loop's split is the only way to cut a known field off a non-empty token |
| StorageVars.OneFieldFits | internal/domain/model/storage.go:310-325 | no two known fields fit the end of one variable |
| StorageVars.ParsedIffWellFormed | internal/domain/model/storage.go:382-405 | a variable parses to a reference exactly when it is the prefix, a token naming a valid storage, and a known field |
| StorageVars.ParsePrinted | internal/domain/model/storage.go:327-338 | parsing a printed variable gives back the kind, name and field, for every valid name and known field |
| StorageVars.VarNamesInjective | internal/domain/model/storage.go:327-338 | no two storages, backups or fields share a variable |
| StorageVars.PrintParsed | internal/domain/model/storage.go:382-417 | printing what was parsed gives the variable back exactly when it is all of [A-Z0-9_] |
| StorageVars.DocumentedNames | internal/domain/model/storage.go:327-338 | two documented variables, letter for letter |
| StorageVars.DocumentedFields | internal/domain/model/storage.go:325 | the fields are these eight |
| StorageVars.ValidNameIs | internal/domain/model/storage.go:107-120 | a storage name is valid exactly when it is one of [a-z0-9], or two with at most 30 of [a-z0-9-] between |
| StorageVars.MatchAt | internal/domain/model/storage.go:350-367 | finds the regular expression's one match at a position, if there is one |
| StorageVars.CountDollarsBefore | internal/domain/model/storage.go:367-373 | counts the dollars in a row before a match |
| StorageVars.ScanContent | internal/domain/model/storage.go:361-378 | leftmost, non-overlapping matching finds exactly the unescaped matches |
| StorageVars.ScanStorageRefs | internal/domain/model/storage.go:353-380 | the answer is sorted, without duplicates, and exactly the unescaped matches of all contents |
| StorageVars.ComposeRefsAreFound | internal/domain/model/storage.go:353-380 | a storage variable in a compose reference is found at the same dollar: pairing and counting dollars agree |
| StorageVars.ScannersAgree | internal/domain/varref/refs.go:55-84 | the storage variables among References are among the storage scanner's |
| StorageVars.FoundIsComposeRef | internal/domain/model/storage.go:353-380 | a match is a compose reference of that name exactly when no lower-case letter follows and, in braces, a legal form does |
| AlertWindow.Buffer.Add | internal/domain/alert/window.go:31-44 | accepts only a later minute, and the buffer stays the newest 60 of all points ever accepted, aligned and increasing |
| AlertWindow.Buffer.Average | internal/domain/alert/window.go:46-78 | the answer is the coverage-gated mean over the buffer |
| AlertWindow.Backward | internal/domain/alert/window.go:61-73 | the backward loop with its early exit counts and sums every point after the cutoff |
| AlertWindow.BufferIsEnough | internal/domain/alert/window.go:46-78 | up to an hour's window the truncated buffer decides as the whole history |
| AlertWindow.RuleWindow | internal/domain/alert/rule.go:68-73 | for a rule's window of 1 to 60 minutes the mean is the history's, over at least 4/5 and at most all of its minutes |
| AlertWindow.CountBound | internal/domain/alert/window.go:62-71 | no minute counts twice: a window holds at most one point per minute |
| AlertWindow.LongWindowTruncated | internal/domain/alert/window.go:36-43 | for every longer window some history is decided differently by its buffer |
| AlertWindow.BufferIsEnoughIff | internal/domain/alert/window.go:31-78 | the buffer refines the history exactly for windows of at most an hour |
| AlertWindow.StampIsMinute | internal/domain/alert/window.go:31-44 | a point is stamped with the whole minute it lies in |
| AlertWindow.EnoughPoints | internal/domain/alert/window.go:49-78 | points are enough exactly when there is one and they are 4/5 of the window's whole minutes |
| AlertWindow.CountIsNumber | internal/domain/alert/window.go:61-73 | the count is the number of points after the cutoff that have the metric |
| AlertWindow.SumAdds | internal/domain/alert/window.go:61-73 | the sum adds the values of these points and no others |
| AlertWindow.MeanIs | internal/domain/alert/window.go:49-78 | there is a mean exactly when points enough have the metric, and times their number it is their sum |
| Rollup.AddRow | internal/domain/metrics/rollup.go:42-56 | one row's fields, in any order, join the accumulated sum, weight and peak of each field it carries |
| Rollup.Run | internal/domain/metrics/rollup.go:30-72 | the merged row has a field when a row carries it: the weighted mean, and the largest peak, with a missing flag counted as 0 |
| Rollup.Carriers | internal/domain/metrics/rollup.go:42-69 | carried samples lie between 0 and all, and are positive exactly when a row carries the field |
| RollupOrder.Permuted | internal/domain/metrics/rollup.go:35-72 | samples, carried samples, weighted sum and top peak depend on which rows there are, not on their order |
| RollupOrder.AnyOrder | internal/domain/metrics/rollup.go:35-72 | a row is the rollup of some rows in one order exactly when it is in every order |
| RollupTheorems.SamplesCompose | internal/domain/metrics/rollup.go:30-72 | for any partition of the rows, staging keeps the sample count exactly when no part is empty |
| RollupTheorems.PeaksCompose | internal/domain/metrics/rollup.go:30-72 | for any partition staging keeps which fields there are and every peak |
| RollupTheorems.AveragesCompose | internal/domain/metrics/rollup.go:30-72 | staging keeps an average when the parts that carry the field carry it on the same share of their samples |
| RollupTheorems.CarriedByAll | internal/domain/metrics/rollup.go:30-72 | a field every row carries is such a field |
| RollupTheorems.AveragesNeedSameShare | internal/domain/metrics/rollup.go:30-72 | were all values to average alike when staged, the shares would be the same |
| RollupTheorems.AveragesComposeIff | internal/domain/metrics/rollup.go:30-72 | staging keeps a field's average for all values exactly when the shares are the same |
| RollupTheorems.FlagComposes | internal/domain/metrics/rollup.go:62-66 | for any partition the unavailable share is reported staged when it is reported directly, and is the same exactly when no part is empty or the reports sum to 0, whichever rows report it |
| RollupTheorems.AverageBelowPeak | internal/domain/metrics/rollup.go:42-71 | when each row's value is at most its peak, so is the merged one; for the flag, when all or no rows report it or one report's peak is not negative |
| RollupTheorems.FlagBelowPeakIff | internal/domain/metrics/rollup.go:62-71 | for the flag, every choice of reported values at most their peaks stays below its peak exactly when all rows or none report it |
| RollupTheorems.FairFlagClimbs | internal/domain/metrics/sample.go:154-169 | reports that are not negative and at most their peak, as samples make them, merge into such a report, on every tier |
| RollupTheorems.BucketsNest | internal/domain/metrics/tier.go:22-52 | down the tier chain, the finer bucket's start first changes nothing: coarse buckets partition the samples |
| RollupTheorems.BucketStartIs | internal/domain/metrics/tier.go:49-52 | a bucket starts at the multiple of its length last before the instant, or at it |
| RollupMeaning.PeakIsLargest | internal/domain/metrics/rollup.go:42-71 | the merged peak of a field is at least each carrier's stored peak, its value where it stores none, and is one of these |
| RollupMeaning.RawPeak | internal/domain/metrics/rollup.go:42-71 | for rows without peaks it is the largest value, and the average is at most it |
| RollupMeaning.RollupOfOne | internal/domain/metrics/rollup.go:30-72 | one row comes out with its own values, as at least one sample |
| RollupMeaning.RollupOfTwo | internal/domain/metrics/rollup.go:30-72 | the samples of two lists add up, and a field is there when either has it |
| RollupMeaning.AverageOfTwo | internal/domain/metrics/rollup.go:42-71 | of a field every row carries, the averages weigh in by their samples |
| RollupMeaning.AverageOfCarriers | internal/domain/metrics/rollup.go:57-68 | rows that do not carry a field leave its average alone, and dilute the flag's |
| Snapshots.ValidateList | internal/domain/command/vars.go:47-65 | accepts exactly the lists of well-formed, distinctly named entries, and a refusal names the first bad entry and what is wrong with it |
| Snapshots.Validate | internal/domain/command/vars.go:41-67 | accepts exactly the valid snapshots: no negative revision, then org, then server entries |
| Snapshots.ValidNameIs | internal/domain/model/shared_variable.go:15-39 | a name is valid exactly when it is an identifier of at most 255 characters and neither COMPOSE_PROJECT_NAME nor a WF_ name |
| SnapshotStore.Store.constructor | internal/infra/vars/store.go:26-28 | a new store holds nothing and has not read its file |
| SnapshotStore.Store.Load | internal/infra/vars/store.go:62-75 | reads the file once; a missing or unreadable one leaves the zero snapshot |
| SnapshotStore.Store.Current | internal/infra/vars/store.go:33-38 | answers the loaded snapshot |
| SnapshotStore.Store.ScrubList | internal/infra/vars/store.go:50-60 | the copy has every secret's plain value blanked and all else as it was |
| SnapshotStore.Store.WriteFile | internal/infra/vars/store.go:101-135 | the file is the new snapshot, or, after a failure before the rename, untouched; a failed directory sync is ignored |
| SnapshotStore.Store.Apply | internal/infra/vars/store.go:80-97 | keeps the scrubbed snapshot in memory and file together, or neither; refuses exactly the older ones |
| SnapshotMeaning.ScrubbedMeansTheSame | internal/infra/vars/store.go:48-60 | whoever decrypts and whatever is built in, a scrubbed snapshot resolves as the snapshot does: values, missing and undecryptable references alike |
| SnapshotMeaning.ApplyKeepsMeaning | internal/infra/vars/store.go:77-97 | after an Apply that answered true, what Current answers, now or after a restart, resolves as the snapshot sent |
| SnapshotMeaning.CurrentMeansWhatWasSent | internal/infra/vars/store.go:33-97 | over every run of failures, crashes and power losses, Current answers nothing or what resolves as one snapshot that was sent, whole |
| SnapshotRuns.EveryState | internal/infra/vars/store.go:48-135 | over applies, failures, crashes and restarts the promised revisions stay below the file's, and memory follows the file |
| SnapshotRuns.RevisionNeverGoesDown | internal/infra/vars/store.go:33-97 | each revision Current answers is at least every earlier one and every one an Apply answered true for |
| SnapshotRuns.MemoryIsDisk | internal/infra/vars/store.go:48-97 | once loaded and outside Apply, memory is the file, and neither holds a secret's plain value |
| SnapshotRuns.UnreadableFileForgets | internal/infra/vars/store.go:62-75 | a process's first Current keeps the promise exactly when the file is readable or nothing was promised |
| SnapshotRuns.UnreadableFileTakesOlder | internal/infra/vars/store.go:62-87 | a process's first Apply takes a snapshot older than promised exactly when the file is unreadable and the snapshot is older than promised but not negative |
| SnapshotRuns.UnreadableReadForgets | internal/infra/vars/store.go:62-75 | a run in which an apply answers true, the file is there, and after a restart Current answers revision 0 |
| SnapshotRuns.StepsAreApply | internal/infra/vars/store.go:80-135 | the file operations of one Apply, run up to where one fails, leave memory, file and answer as Store.Apply does |
| SnapshotRuns.OldestIsSynced | internal/infra/vars/store.go:127-135 | the oldest file a power loss can bring back is the one of the last directory sync that succeeded |
| SnapshotRuns.PowerLossForgets | internal/infra/vars/store.go:127-135 | right after an answer, some power loss makes the next Current answer an older revision than was answered before exactly when the file is newer than at the last directory sync that succeeded |
| SnapshotRuns.UnsyncedRenameLost | internal/infra/vars/store.go:127-135 | a run in which an apply answers true, the directory sync fails, and the next Current answers revision 0 |
| Resolve.Apply | internal/infra/vars/resolve.go:44-60 | one scope's list: each name's last usable entry over what was there, the rest appended as missing or undecryptable |
| Resolve.Run | internal/infra/vars/resolve.go:35-67 | every name has its effective value, built-in under org under server, and both reference lists are sorted |
| Resolve.SortRefsSorts | internal/infra/vars/resolve.go:69-76 | sorting orders by name, then org before server, and keeps every reference |
| Resolve.BuiltinsStand | internal/infra/vars/resolve.go:35-67 | in a valid snapshot no entry overrides a WF_ built-in |
| Resolve.ServerOverOrg | internal/infra/vars/resolve.go:35-67 | any other name has its server entry's value if usable, else its org entry's, else none |
| Resolve.EveryEntryAccounted | internal/infra/vars/resolve.go:35-67 | each entry is applied, missing or undecryptable, exactly one of them; both lists are sorted without duplicates |
| Resolve.ListedAre | internal/infra/vars/resolve.go:44-60 | missing are exactly the secrets without a ciphertext, undecryptable exactly those whose ciphertext does not decrypt |
| Resolve.SortedByNameThenScope | internal/infra/vars/resolve.go:69-76 | the lists are in order of name, and the org's reference precedes the server's |
| ProcessLists.BuildOwners | internal/app/agent/processes.go:88-95 | a container is owned exactly when some app lists it, by the last app listing it and under the name it last has there |
| ProcessLists.LastListingOwns | internal/app/agent/processes.go:88-95 | the map built in order holds each container's last listing |
| ProcessLists.NamedIs | internal/app/agent/processes.go:96-100 | a container's process gets the id of the app that lists the container last, none when none does; other processes stay as they are |
| ProcessLists.NamedGroupIs | internal/app/agent/processes.go:101-106 | a container's group gets that app's id and is titled with the name it lists the container under |
| ProcessLists.NameApps | internal/app/agent/processes.go:85-109 | the caller's rows are fresh copies named from the owners; the shared read's rows are not written |
| ProcessLists.EveryState | internal/app/agent/processes.go:70-132 | over every interleaving the running read is the one flight points to, and an answer is what its closed read wrote |
| ProcessLists.OneReadAtATime | internal/app/agent/processes.go:112-132 | at most one source read runs, and flight points to it |
| ProcessLists.AnsweredFromItsFlight | internal/app/agent/processes.go:70-84 | a call that is answered gets the whole result of the very read it joined |
| ProcessLists.JoinsTheRunningRead | internal/app/agent/processes.go:112-118 | while a read runs a new call joins it and starts none |
| ProcessLists.StartsIffNoneRuns | internal/app/agent/processes.go:112-132 | a call starts a read exactly when none runs, and waits for the one that then runs |
| Jwks.JwksLifetime | internal/infra/oauthprovider/jwks.go:110-133 | for every header string, in 64-bit durations that never overflow: 5 minutes once no-store or no-cache stands anywhere, else the last usable max-age as the unbounded product would give it, within 5 minutes and 24 hours |
| JwksHeader.SplitIs | internal/infra/oauthprovider/jwks.go:113-115 | the directives are exactly what stands between the commas |
| JwksHeader.DirectiveIs | internal/infra/oauthprovider/jwks.go:115-116 | a directive is read without the white space around it, in lower case |
| JwksHeader.NumberIs | internal/infra/oauthprovider/jwks.go:120-124 | a number is read exactly when digits, with a sign or without, write it in 64 bits |
| JwksHeader.MaxAgeIs | internal/infra/oauthprovider/jwks.go:115-129 | max-age in any case, its number in quotes or not, white space around it, is read as that number, and not at all above 64 bits |
| JwksHeader.AnyCase | internal/infra/oauthprovider/jwks.go:116-118 | the three directives may be written in capitals |
| JwksHeader.MaxAgeAlone | internal/infra/oauthprovider/jwks.go:113-133 | a header of one max-age gives that many seconds, within 5 minutes and a day |
| JwksHeader.ForbiddingHeader | internal/infra/oauthprovider/jwks.go:113-119 | a no-store or no-cache anywhere in the list gives 5 minutes, whatever the other directives |
| JwksHeader.SilentHeader | internal/infra/oauthprovider/jwks.go:113-133 | a header without either and without a readable max-age gives an hour |
| JwksHeader.LastCounts | internal/infra/oauthprovider/jwks.go:115-131 | of several readable max-ages the last counts |
| Jwks.Client.Check | internal/infra/oauthprovider/jwks.go:82-97 | the first section answers from a fresh set, refuses an unknown kid within a minute of a vain fetch, or lets the call fetch |
| Jwks.Client.Store | internal/infra/oauthprovider/jwks.go:157-174 | the fetched set replaces the keys, unusable entries skipped and the last of a kid winning |
| Jwks.KeysAre | internal/infra/oauthprovider/jwks.go:157-174 | a kid's key is that of its last entry that is for signing, or for no stated use, and is readable; without one the kid is unknown |
| Jwks.Client.Look | internal/infra/oauthprovider/jwks.go:101-107 | the last section answers from the set held then, or arms the throttle |
| Jwks.Client.KeyFor | internal/infra/oauthprovider/jwks.go:82-108 | a call alone, with its three clock readings, is the sections in order, and a failed fetch changes nothing |
| JwksRuns.EveryState | internal/infra/oauthprovider/jwks.go:82-175 | in every interleaving of concurrent calls the cache is the last set stored, clock readings are in order, and each vain call has armed the throttle |
| JwksRuns.CacheIsLastFetch | internal/infra/oauthprovider/jwks.go:82-175 | the cache is always the last set fetched, trusted for the lifetime that came with it |
| JwksRuns.KeysAreCurrent | internal/infra/oauthprovider/jwks.go:82-91 | a key answered from the cache is in the last set fetched, which is younger than its lifetime of at most a day |
| JwksRuns.FetchedKeysAreCurrent | internal/infra/oauthprovider/jwks.go:98-105 | a key answered after a fetch is in the last set fetched by then, the call's own or a later one |
| JwksRuns.BeginFetchesIff | internal/infra/oauthprovider/jwks.go:82-97 | a call goes to fetch exactly when the last set's lifetime is over, or it lacks the kid and no fetch was found vain within a minute; a kid of a trusted set is answered at once |
| JwksRuns.LooksFindsIff | internal/infra/oauthprovider/jwks.go:98-108 | after its fetch a call verifies exactly when the last set stored by then has the kid, else it arms the throttle |
| JwksRuns.BeginsThrottled | internal/infra/oauthprovider/jwks.go:88-107 | a call that begins after a vain one ended goes to fetch only a minute or more after the vain one's fetch |
| JwksRuns.VainFetchesThrottled | internal/infra/oauthprovider/jwks.go:60-108 | in every interleaving, a fetch of a call begun after a vain one ended is at least a minute after the vain one's fetch |
| JwksRuns.OverlapNotThrottled | internal/infra/oauthprovider/jwks.go:60-108 | a run in which two overlapping calls fetch in vain in one instant |
| RolloutScope.Compact | internal/domain/model/rollout.go:155-159 | compacting a sorted list leaves each element once |
| RolloutScope.Join | internal/domain/model/rollout.go:155-159 | concatenating, sorting and compacting gives the sorted union |
| RolloutScope.AddRevisions | internal/domain/model/rollout.go:120-125 | whatever order the map gives, each server ends with its higher revision |
| RolloutScope.Merge | internal/domain/model/rollout.go:111-130 | the merged scope: unions, the higher revision of each server, the later deadline |
| RolloutScope.MergeIsJoin | internal/domain/model/rollout.go:111-130 | merging is commutative and associative, merging with itself only sorts, and every merge is in that sorted form |
| RolloutScope.MergeWantsBoth | internal/domain/model/rollout.go:132-152 | the merge wants whatever either scope wants, holds exactly the higher of the two revisions of each server, and has no earlier deadline than either |
| RolloutScope.MergeWantsExactly | internal/domain/model/rollout.go:132-152 | beyond that it wants exactly a server of one scope with a name of the other |
| RolloutScope.WantsByPart | internal/domain/model/rollout.go:135-152 | a scope wants an app exactly when it is stale for something and its server is wanted whole, it is named itself, or its server is wanted and it is stale for a wanted name |
| Domains.Winning | internal/domain/model/domain.go:75-92 | for every lower-casing, the answer is the first exact name that covers the host, else the last wildcard that does; none exactly when no name covers it |
| Domains.WinnerWins | internal/domain/model/domain.go:75-92 | whoever is found covers the host, and is exact when any exact name covers it |
| Domains.ValidNamesAreLower | internal/domain/model/domain.go:50-61 | a valid name is its own lower-case spelling |
| Domains.LabelIs | internal/domain/model/ingress.go:69-71 | a label is one of [a-z0-9], or two with at most 61 of [a-z0-9-] between |
| Domains.HostnameIs | internal/domain/model/ingress.go:69-75 | a hostname is labels with dots between, of at most 253 characters |
| Domains.CoversIs | internal/domain/model/domain.go:63-73 | an exact name covers the hosts of its lower-case spelling; a wildcard exactly those of one non-empty label, a dot and its suffix |
| Domains.OneOfEachKind | internal/domain/model/domain.go:63-73 | valid names that cover one host in the same way are one name |
| Domains.OneWildcard | internal/domain/model/domain.go:63-73 | at most one registered wildcard covers a host |
| Domains.OneWinner | internal/domain/model/domain.go:75-92 | with no two spellings of one name, at most one registration may win a host, in any order of the list |
| Domains.OrderIrrelevantIff | internal/domain/model/domain.go:75-92 | for every lower-casing that keeps the characters of valid names and makes no other a dot or star, the answer is the same for every order of the list, on every host, exactly when no two different registrations have one lower-case spelling |
| Domains.ValidOrderIrrelevant | internal/domain/model/domain.go:50-92 | so it is for valid names, each registered once |
| Domains.WinnerIffCovered | internal/domain/model/domain.go:75-92 | a host has a winner exactly when some registration covers it |
| Domains.SpellingsCompete | internal/domain/model/domain.go:63-92 | for any two characters of one lower-case spelling, two such spellings of a wildcard: the last in the list wins |
| Domains.FirstSpellingWins | internal/domain/model/domain.go:75-92 | of two spellings of an exact name the first in the list wins |

## Left out

- Reload worker: logging, published events, the names an outcome carries, the per-reload timeout, and the JSON request types.
- Index sync: the dispatcher and the command payloads; a dispatch is the attempt the methods return.
- `varsSync.reloaded` and the sync's own contents: only the push decision is modelled.
- Digest: the hash itself; the theorems are about the bytes it is fed.
- AlertWindow and Rollup: floating point; sums, means and the coverage constant are exact, and instants are whole seconds.
- Rollup: `ToPoint`, `Pick`, `ParseRange` and `Retention`, which follow a stored row or a constant table.
- StorageVars: `CheckStorageRefs` and the field values, and the wording of errors; an error is the branch that returns it.
- SnapshotStore.Store.Apply: temporary files and their clean-up; a failed step only says where the write stopped.
- SnapshotRuns.RevisionNeverGoesDown: needs a readable file and no power loss undoing what was answered, because the code promises nothing then; `UnreadableFileForgets`, `UnreadableFileTakesOlder` and `PowerLossForgets` say exactly when.
- Resolve: `ServerBuiltins` and `AppBuiltins`, constant tables; decryption is any function.
- Resolve.SortRefsSorts: the library's sort is modelled as an insertion, since its result is what matters.
- Jwks: decoding and parsing of keys, and the HTTP requests; a fetch brings anything or fails.
- ProcessLists: the refusal off Linux, a lister without a status snapshot, the source read itself and the status snapshot's upkeep.
- RolloutScope: `Validate`, `Servers`, and the rollout's database.
- Domains: TLS modes and the wording of the not-covered error.
