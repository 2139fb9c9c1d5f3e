# Barq Server control plane: a verified model

This project models the crash-safe control plane of Barq Server in Dafny 4.11 and proves what it
promises. The control plane keeps its state in `control.barq`, a store of versioned records, and
talks to Core, the engine that enforces sync rules and produces the change feed.

The layers, bottom up:

- **Versioned store** (`Table`, `Keys`, `BarqStore`). A transaction of up to 100 conditional puts and
  deletes. `Table` says what a transaction means, as one atomic update of a map; `BarqStore` is the
  two-loop implementation, proved to be that update. `Keys` shows that the string keys are faithful.
- **Sync-rule protocol** (`SyncProtocol`, `SyncRules`, `SyncSafety`, `SyncAuthors`, `SyncRequests`, `SyncRecovery`,
  `SyncLate`, `SyncRivals`, `SyncService`, `SyncStorage`).
  Installing rules is a two-party protocol: an intent record, a request to Core, and a finishing
  transaction. `SyncProtocol` is a state machine of single store operations and requests, in which calls
  interleave, answers get lost, requests arrive late and the process dies between any two steps.
  `SyncSafety` proves its invariant and the guarantees over all runs, `SyncRequests` that success means
  the caller's own rules and what several requests under one ID do, `SyncAuthors` who stands behind each
  revision in history, and `SyncRules` what comparing rule lists means. Startup recovery has three parts:
  `SyncRecovery` is about recovery that is interrupted and started over while no late request reaches Core;
  `SyncLate` lets late and lost requests interleave with every step, and shows what makes an attempt fail, how
  often that can happen, and that recovery still ends; `SyncRivals` says when it cannot fail at all. `SyncService`
  shows that the service's methods are runs of the protocol, and `SyncStorage` that the protocol's store
  operations are transactions of the versioned store.
- **Webhook pipeline** (`WebhookModel`, `Dispatcher`, `DispatcherResults`, `DispatcherService`, `DispatcherRuns`,
  `WebhookRetry`, `WebhookSystem`, `WebhookSafety`, `WebhookTheorems`, `WebhookOrigins`, `WebhookCalls`, `WebhookKeys`,
  `WebhookStorage`). `Dispatcher` says what one event does, write by write, with a budget of writes after which the
  process dies, and `DispatcherResults` what that leaves on record; `DispatcherService` has the loops of the code,
  proved equal to it. `WebhookSystem` is the state machine of one dispatcher with any number of service calls, a
  growing feed, a clock and crashes; `WebhookSafety` has its invariant and `WebhookTheorems` what follows for users;
  `WebhookOrigins` traces every materialization and delivery to an event and a webhook that asked for it, and
  `WebhookCalls` says what the service's calls do. `DispatcherRuns` shows that the two views agree: left alone, the
  machine's walk over an event, its poll of a page and its drain of a listing compute what the functions say.
  `WebhookRetry` shows that retrying ends and which deliveries a pass tries, and `WebhookStorage` that the
  pipeline's writes are transactions of the versioned store.
- **Release change** (`Environment`, `Releases`, `Deployment`, `Maintenance`). The rewriting of `.env`,
  the release history, and backup, restore, upgrade and rollback as sequences of steps each of which
  may fail, a failed write leaving anything in its file.
- **Canonical JSON and API keys** (`Sorting`, `CanonicalJson`, `KeyRegistry`). A serializer from whose
  output the value can be read back, and the rule that a global administrator always remains.

`Results`, `Text` and `Counting` hold the error codes, decimal numerals, byte order and repeated addition
that the others share.

## Main results

1. `BarqStore.BarqStore.Apply` with `Table.AtomicUpdateUnique`: the two-loop transaction is the one atomic
   update that the mutations mean, or changes nothing and says why, with the exact code.
2. `SyncSafety.NoLiveRulesForgotten` and `SyncSafety.HistoryIsTrueAndImmutable`: whatever crashes and gets lost,
   rules that Core enforces are in history or pending, and history is what Core installed, under the names of
   those who asked for it (`SyncAuthors.HistoryNamesItsAuthors`).
3. `SyncRequests.SuccessIsForTheRequest` and `SyncSafety.SuccessIsDurable`: success means that the caller's own
   rules are recorded, for good.
4. `SyncLate.AskFailsIffOvertaken`, `SyncLate.FailuresAreFew`, `SyncLate.RecoveredIsRecorded` and
   `SyncLate.RecoveryEnds`: startup recovery against late requests and crashes: what stops an attempt, how
   often, and that it gets through with everything recorded.
5. `SyncRivals.NeverFailsIffNoRivals`: the exact condition on a state under which no attempt fails, and
   `SyncRivals.AgreementIsEnough` with `SyncRivals.AgreementIsExact`: as much of it as can be read off the store and
   Core before a start.
6. `SyncService.Service.Apply` and `SyncService.Service.Reconcile`: the service's methods are runs of the protocol.
7. `Dispatcher.EventConverges` and `DispatcherResults.EventIsTold`: an event cut after any write and processed again
   ends as if never cut, and what it leaves is what each webhook's own script made of it.
8. `WebhookTheorems.NoEventIsLost` and `WebhookOrigins.MaterializationsAreAskedFor`: no webhook that asks for an event
   misses it once the cursor has passed it, and none is told of an event it did not ask for.
9. `WebhookTheorems.RenderedIsSent` and `WebhookTheorems.PostsAreBounded`: what was rendered is what is sent, and
   how often at most.
10. `WebhookRetry.RetryingEndsInTime` with `WebhookTheorems.ReachableStoresAreSound`: every delivery is completed or
    dead by a time that can be computed from the store.
11. `DispatcherService.Loop.ProcessEvent`, `DispatcherRuns.PollRuns` and `DispatcherRuns.DrainRuns`: loops of the
    code, functions and state machine say the same.
12. `Maintenance.Host.ChangeRelease` and `Maintenance.Host.Upgrade`: the outcome of a release change for every step
    that can fail, and exactly when it completes.
13. `CanonicalJson.ValueComesBack` and `CanonicalJson.CanonicalDetermines`: equal canonical texts exactly for
    equal values.
14. `KeyRegistry.LastAdminSurvives` with `KeyRegistry.UpdateTakesEffect`: no sequence of commands leaves the server
    without a global administrator, and otherwise each does exactly what it was asked.

## What the model assumes

- Core keeps its contract: a request with the current revision and hash succeeds again, otherwise a
  stale expected revision is refused, and nothing but stale revisions and unacceptable rules is.
- Of two Applies under way with the same request ID, the intents differ in something, if only in their
  creation times; otherwise any number of Applies and of requests still on their way to Core may share an ID.
  That Core acts on a request after it has rejected it for good is outside its contract.
- One dispatcher works at a time, as `cmd/barq-server/main.go:175-210` starts it. The change feed of a
  scope has ascending cursors and is not cut off below the saved cursor. Tenant names contain no
  slash, as the key registry enforces, so cursor keys do not collide.
- Hashes, materialization, transform scripts, JSON encoding and the identity patterns are functions
  given to the model; JSON encoding is taken as lossless. The clock is monotone; time is counted in
  nanoseconds. Revisions and versions stay far from the end of their integer types.
- `WebhookOrigins` takes what the data plane and the script runtime answer to be what these functions give.
- The results on retrying are about passes of the dispatcher one after the other, with no new deliveries and
  no replays between them; `WebhookRetry.RetryingEndsInTime` also takes whole passes to be at most a given
  time apart. The server starts one every 250 ms (`cmd/barq-server/main.go:176`).
- Arguments are taken after their white space has been trimmed.
- Sorting rules by object type keeps the order of rules with equal types, where the source's sort
  leaves it open.

A string stands for the bytes of a Go string wherever its length or byte order matters, as in the keys of
records; in canonical JSON it stands for the Unicode scalar values, whose order is that of their UTF-8.

## Where code and promise differ

- Startup recovery can fail although every pending record could be recovered: if a request sent before the
  crash reaches Core between the read and the request for another record, that record is refused and the
  server exits (`cmd/barq-server/main.go:74-77`). `SyncRivals.LateRequestStopsRecovery` is such a run,
  `SyncRivals.NeverFailsIffNoRivals` the exact condition under which there is none, and
  `SyncLate.FailuresAreFew` bounds how many starts it can cost.
- A retry under the same request ID counts as the same request only if it has the same creation time,
  because the whole intent is compared (`internal/syncrules/service.go:339-343`). So it is refused as a conflict as
  long as the first intent is on record; the contracts of `SyncService.Service.Intend` and
  `SyncService.Service.Apply` say so.
- A replaced environment value is checked for line breaks only if its key is already in the file.
  `Environment.SetsEveryKeyIffCleanlyAdded` gives the exact condition under which every key ends up
  set, `Deployment.UncheckedImage` a release image that passes the checks of this code and misses it. (A release
  change pulls its images first, `internal/deployment/upgrade.go:118-120`, and a pull may well refuse such a name.)
- A release change undoes itself from the first write after `.env` on. The failed write of `.env` itself
  is left as it is; the contract of `Maintenance.Host.ChangeRelease` says so for every outcome.
- The rollback of a failed release refuses a snapshot that contains links, although the backup was
  made without complaint; `Maintenance.Host.ChangeRelease` states that the undoing succeeds exactly if
  the volume holds none.
- Two rollbacks restore the deployment only while the current release is not the last entry of its
  history; `Releases.HistoryStaysBounded` shows that upgrades and rollbacks keep it so.
- The change cursor's key is not framed; `Keys.CursorKeyCollision` says exactly which scopes share one.
- A revision that Core superseded while its record was still pending is dropped from the queue and may
  never enter history. `SyncSafety.NoLiveRulesForgotten` is therefore about current revisions.

## Model

| member | source | states |
|---|---|---|
| Table.AtomicUpdateUnique | internal/control/barq.go:136-242 | the starting state and the mutations determine the final state: what a transaction means leaves no choice |
| Table.OrderIrrelevant | internal/control/barq.go:136-242 | any reordering of the mutations is admissible exactly if the first order is, and leads to the same final state |
| Table.SinglePut | internal/control/barq.go:116-122 | a transaction of one put is the update of one record, its version one higher |
| Table.SingleDelete | internal/control/barq.go:124-127 | a transaction of one delete removes that record and nothing else |
| Table.DoublePut | internal/control/barq.go:136-242 | a transaction of two puts is both updates at once, each version one higher, whatever their order |
| BarqStore.VerdictIsAcceptance | internal/control/barq.go:157-193 | the check loop finds no fault exactly if there are 1 to 100 well-formed mutations on distinct records that all meet their conditions in the starting state |
| BarqStore.FirstStopDecides | internal/control/barq.go:157-193 | a transaction of 1 to 100 mutations is answered by the first of them that is malformed, repeats a record, deletes a missing record or misses its version: invalid, invalid, not found, conflict |
| BarqStore.BarqStore.CheckOne | internal/control/barq.go:157-193 | one round of the check loop: invalid exactly for a malformed mutation or a record named before, internal exactly for a failed lookup, not found exactly for the delete of a missing record, conflict exactly if only the version expectation is missed |
| BarqStore.BarqStore.Check | internal/control/barq.go:146-193 | the first loop reports exactly the first complaint or failed lookup in order, and otherwise records for each mutation whether its record exists and its next version |
| BarqStore.BarqStore.Write | internal/control/barq.go:195-233 | the second loop writes every planned mutation, or stops exactly if one of its writes fails and leaves the rows to be dropped |
| BarqStore.BarqStore.Report | internal/control/barq.go:234-241 | one record for each put, in order, with the new version |
| BarqStore.WrittenIsUpdate | internal/control/barq.go:195-227 | the rows the second loop produces are the one atomic update of the starting table |
| BarqStore.BarqStore.Apply | internal/control/barq.go:136-242 | all or nothing: on success the contents are the atomic update, on failure nothing changes; the code is that of the first mutation that is malformed, repeats a record, deletes a missing one or misses its version, and says which of these it is; internal for a cancelled context, a lookup that fails before that, or a failed write; without faults success means exactly that the transaction is acceptable |
| BarqStore.BarqStore.PutOne | internal/control/barq.go:116-122 | without faults: invalid exactly if malformed, conflict exactly if well formed and the expectation is missed, otherwise the record holds the value at a version one higher; a failed put changes nothing |
| BarqStore.BarqStore.DeleteOne | internal/control/barq.go:124-127 | without faults: invalid for an empty name, not found if there is no record, conflict if its version is not the one expected, otherwise that record goes and no other; a failed delete changes nothing |
| BarqStore.BarqStore.Get | internal/control/barq.go:60-70 | returns exactly the record of that collection and key, or not found, or invalid for an empty name, or internal exactly for a cancelled context or a failing lookup |
| BarqStore.BarqStore.List | internal/control/barq.go:72-114 | returns all records of the collection whose key has the prefix, and no others, in ascending key order; internal exactly for a cancelled context or a walk that fails |
| BarqStore.BarqStore.Select | internal/control/barq.go:84-111 | walks all records in any order and keeps exactly those of the collection whose key has the prefix, or stops at the first lookup that fails |
| Keys.RecordIDInjective | internal/control/barq.go:286-288 | distinct (collection, key) pairs have distinct primary keys, whatever characters they contain |
| Keys.ScopeKeyInjective | internal/syncrules/service.go:368-370 | distinct scopes have distinct keys |
| Keys.PendingKeyInjective | internal/syncrules/service.go:149 | a pending record's key determines scope and request ID |
| Keys.RevisionKeyInjective | internal/syncrules/service.go:372-374 | a revision key determines scope and revision, for every uint64 |
| Keys.RevisionListingIsExact | internal/syncrules/service.go:198-213 | listing by the scope's key and a slash returns exactly that scope's revisions |
| Keys.RevisionKeyOrder | internal/syncrules/service.go:372-374 | within a scope the byte order of the 20-digit keys is the numeric order, for every uint64 |
| Keys.CursorKeyCollision | internal/webhooks/dispatcher.go:289 | two scopes share a cursor key if and only if one tenant is the other extended by a slash and the front of its database |
| Keys.CursorKeyInjective | internal/webhooks/dispatcher.go:289 | scopes whose tenants contain no slash have distinct cursor keys |
| Text.LessIsLexicographic | internal/control/barq.go:112 | the order in which listings and keys are sorted is the lexicographic order of bytes |
| WebhookKeys.JobKeyInjective | internal/webhooks/dispatcher.go:291-293 | a materialization or delivery key determines webhook, revision and event |
| WebhookKeys.HookListingIsExact | internal/webhooks/service.go:203-207 | listing by webhook ID and a slash returns exactly that webhook's deliveries |
| WebhookStorage.IdentInjective | internal/webhooks/service.go:344 | no two records of the webhook pipeline, of whatever kind, share a place in the store |
| SyncStorage.AddRevisionIsTransaction | internal/syncrules/service.go:298-300 | putting a new revision in the typed store is the put of its record under its key, requiring it to be new |
| SyncStorage.AddPendingIsTransaction | internal/syncrules/service.go:149-156 | writing an intent is the put of its record, requiring it to be new |
| SyncStorage.DropPendingIsTransaction | internal/syncrules/service.go:178 | forgetting an intent is the conditional delete of its record |
| SyncStorage.PutHeadIsTransaction | internal/syncrules/service.go:309-337 | moving a head is the compare-and-swap put of its record |
| SyncStorage.FinishIsTransaction | internal/syncrules/service.go:298-307 | recording a revision, forgetting the intent and moving the head is one transaction of the store: it is accepted in the same cases and has the same effect |
| SyncStorage.AddRevisionAnswers | internal/syncrules/service.go:252-254 | where the put of a new revision is refused, the typed store gives the code the versioned store gives |
| SyncStorage.AddPendingAnswers | internal/syncrules/service.go:155-159 | the same for writing an intent |
| SyncStorage.DropPendingAnswers | internal/syncrules/service.go:94-97 | the same for dropping one: not found if it is gone, conflict if it is another version |
| SyncStorage.PutHeadAnswers | internal/syncrules/service.go:335-336 | the same for moving a head |
| SyncStorage.FinishAnswers | internal/syncrules/service.go:298-306 | the same for the finishing transaction, whose first refused mutation decides |
| SyncSafety.EventKeeps | internal/syncrules/service.go:66-113 | the invariant is kept by every single step of any call, of recovery, of a late request, of a crash |
| SyncSafety.NoLiveRulesForgotten | internal/syncrules/service.go:139-191 | in every reachable state the current Core revision installed through Apply is in history, or a pending record has that target and those rules |
| SyncSafety.HistoryIsTrueAndImmutable | internal/syncrules/service.go:258-307 | a stored revision has exactly the hash and rules Core installed at it, and no run changes or removes it |
| SyncAuthors.HistoryNamesItsAuthors | internal/syncrules/service.go:182-189 | in every reachable state each revision in history carries the actor and request ID of an Apply that asked for this revision and these rules, or was found in Core by a reading |
| SyncSafety.HeadIsSafe | internal/syncrules/service.go:309-337 | a head names a stored revision with the same hash, and its revision never decreases over any run |
| SyncSafety.SuccessIsDurable | internal/syncrules/service.go:187-191 | when a call has returned success its revision is in history and the head is at or past it, then and in every later state |
| SyncRequests.SuccessIsForTheRequest | internal/syncrules/service.go:139-191 | when a call has returned success, the revision is the one it asked for and is recorded with the hash of the rules it asked for, whatever happened meanwhile |
| SyncRequests.SecondIsRefused | internal/syncrules/service.go:149-168 | while one Apply is at work on a record, another one under its ID changes nothing and finds the ID taken, whatever the interleaving |
| SyncRequests.LateIsBackedOrIgnored | internal/syncrules/service.go:170-181 | in every reachable state a request still on its way to Core has its intent on record, or Core will ignore it |
| SyncSafety.HashesNeverDisagree | internal/syncrules/service.go:265-267 | the conflict errors for a revision or head with another hash are never reached |
| SyncRecovery.ListingUnique | internal/syncrules/service.go:66-71 | the pending records have one listing in key order |
| SyncProtocol.OpenCodes | internal/syncrules/service.go:358-366 | every refusal settles a request for good, except that the service is out of reach or failed in the middle |
| SyncRules.SameMeansPermuted | internal/syncrules/service.go:345-356 | rule lists that compare as the same are permutations of each other |
| SyncRules.SameIffPermuted | internal/syncrules/service.go:345-356 | and the other way round, if no two rules are for the same object type |
| SyncRecovery.CourseStep | internal/syncrules/service.go:66-113 | while no late request reaches Core: from a state in which recovery can succeed every step of it does, comes nearer to the end, and leads to the same outcome |
| SyncRecovery.RecoveryDrains | internal/syncrules/service.go:66-113 | while no late request reaches Core: if every pending record expects a revision Core has reached and Core accepts its rules, recovery gets through in 4 + 8n steps, with an empty queue and Core's current revisions in history |
| SyncRecovery.InterruptionsDoNotMatter | internal/syncrules/service.go:66-113 | while no late request reaches Core: however often recovery is stopped at any step and started over, once it is through, Core and history are what settling the records one by one in key order gives, and the queue is empty |
| SyncRecovery.StopsIffBlocked | internal/syncrules/service.go:78-102 | if nothing reaches Core between the read and the request: recovery stops at the first record exactly if it expects a revision Core has not reached or is next in line with rules Core refuses, and then has changed nothing |
| SyncLate.LateKeepsReady | internal/syncrules/service.go:66-113 | a request that reaches Core late, or never, keeps the invariant, the store and the condition under which recovery can go on |
| SyncLate.RecoverOnward | internal/syncrules/service.go:66-113 | wherever such an interleaving has led: a step of recovery fails if it asks for a record whose next revision went to other rules, and otherwise comes nearer to the end or gets through with an empty queue |
| SyncLate.AskFailsIffOvertaken | internal/syncrules/service.go:78-91 | between the read and the request any late requests may arrive or get lost: the attempt fails exactly if one of them was installed in the same scope with other rules |
| SyncLate.OvertakerIsAnother | internal/syncrules/service.go:78-91 | such a request is never the pending record's own |
| SyncLate.FailuresAreFew | internal/syncrules/service.go:66-113 | over every interleaving of recovery, crashes, restarts, late and lost requests, attempts fail at most once per request stranded at the start and once more per crash |
| SyncLate.RecoveredIsRecorded | internal/syncrules/service.go:66-113 | over every such interleaving, whenever an attempt gets through the queue is empty and Core's current revision is in history wherever Apply installed it |
| SyncLate.RecoveryEnds | internal/syncrules/service.go:66-113 | over every such interleaving with r stranded requests, c crashes and n pending records, recovery takes at most (1 + r + 2c)(3 + 8n) steps of its own, and until it is through one of them is possible |
| SyncRivals.NeverFailsIffNoRivals | internal/syncrules/service.go:66-113 | no such interleaving makes an attempt fail if and only if no stranded request expects Core's current revision with rules other than those of the first pending record of its scope that expects it |
| SyncRivals.AgreementIsEnough | internal/syncrules/service.go:66-113 | if all pending records of a scope that expect Core's current revision have rules with the same hash, no interleaving makes an attempt fail, whatever is still under way |
| SyncRivals.AgreementIsExact | internal/syncrules/service.go:66-113 | and store and Core cannot tell more: the records agree if and only if no request that may be under way for all they say is a rival |
| SyncRivals.LateRequestStopsRecovery | cmd/barq-server/main.go:74-77 | a reachable state with two requests under way and a run from it in which recovery is overtaken, fails and leaves the process down |
| SyncService.Service.ListPending | internal/syncrules/service.go:66-70 | lists every pending record once, in key order |
| SyncService.Service.AskCore | internal/syncrules/service.go:170-173 | a request that reaches Core has its effect there even if the answer is lost |
| SyncService.Service.WriteHead | internal/syncrules/service.go:309-337 | a head at the revision or past it is left alone, one at the revision with another hash is a conflict, and any other is moved there; this is what the protocol steps for moving a head do |
| SyncService.Service.FinishApply | internal/syncrules/service.go:258-307 | a revision on record with this hash is left alone, one with another hash is a conflict, a new one is added in one step with the record dropped and the head moved, or not at all, with the code that says why; this is what the finishing steps of the protocol do |
| SyncService.Service.Fetch | internal/syncrules/service.go:76-91 | reads Core's rules and, for a record that is next in line, asks Core to install its rules, as the protocol does; if the read fails or no answer comes the store is untouched, and Core has handled the request exactly if only the answer was lost |
| SyncService.Service.Settle | internal/syncrules/service.go:92-111 | a pending record is recorded under its own actor and request ID exactly if Core, at its target, has its rules in whatever order; it is dropped if Core is past it or has other rules there, and in conflict if Core is behind; this is what the protocol does |
| SyncService.Service.Reconcile | internal/syncrules/service.go:66-113 | the loop over the pending records is the whole run of the recovery protocol, with error exactly if that run fails; history loses nothing and gains only revisions of listed records, under their actors and request IDs, with a permutation of their rules; if Core cannot be read or does not answer, it stops where the protocol had come to at one of the records, whose request Core may have handled |
| SyncService.Service.Intend | internal/syncrules/service.go:144-168 | writes the intent or finds the identical one, at the version returned; any other record under that request ID is a conflict and nothing changes |
| SyncService.Service.Forget | internal/syncrules/service.go:174-180 | after a final refusal the intent is deleted if it is still the one written, and nothing else changes |
| SyncService.Service.Submit | internal/syncrules/service.go:170-190 | puts the intent to Core and acts on the answer as the protocol does: a refusal forgets the intent, an acceptance is recorded under the actor and request ID of the intent; without an answer the store is untouched |
| SyncService.Service.RecordApplied | internal/syncrules/service.go:182-189 | records what Core installed as applied by the actor, under the request ID and at the time of the call, as the finishing steps of the protocol do |
| SyncService.Service.CarryOut | internal/syncrules/service.go:144-190 | the intent is carried out as the whole run of its protocol steps; history gains at most the revision asked for, under the intent's actor and request ID, and has it on success; without an answer the intent stays on record; a request ID that is taken is a conflict and nothing changes, whatever the line does |
| SyncService.Service.Apply | internal/syncrules/service.go:139-191 | an undisturbed call is the whole run of its protocol steps; history gains at most the revision asked for, with its rules, actor and request ID, and has it on success; without an answer from Core the intent stays and history and heads are untouched; an empty request ID is refused; a request ID that is taken is a conflict and nothing changes, whether Core can be reached or not |
| SyncService.Service.Repair | internal/syncrules/service.go:228-257 | a revision of Core that history does not know is recorded as recovered, under the request ID of the reading and without an actor, one known with another hash is a conflict, and otherwise the head follows; this is what the protocol steps do |
| SyncService.Service.Current | internal/syncrules/service.go:119-130 | reading Core's rules repairs history and head as described there, and fails only if that does; without rules in Core nothing changes |
| SyncService.ReconcileSettles | internal/syncrules/service.go:66-113 | while no late request reaches Core: from a state in which recovery can succeed, the run computed by Reconcile leaves an empty queue and exactly the settled outcome |
| SyncService.SettleOneRecords | internal/syncrules/service.go:80-111 | settling one record installs its rules if they are next in line, touches no other scope, and adds its revision, under its actor and request ID, only if Core then has a permutation of its rules at its target |
| WebhookModel.BackoffGrows | internal/webhooks/dispatcher.go:303-309 | waiting times double from two seconds on, never decrease and never exceed an hour |
| WebhookModel.AttemptMoves | internal/webhooks/dispatcher.go:212-245 | an attempt on a live delivery costs one attempt and ends completed exactly on a 2xx answer, dead exactly at the eighth failure, otherwise in retry after 2, 4, 8, 16, 32, 64 and 128 seconds; URL and payload stay, the last status and error are those of the answer |
| Dispatcher.OthersUntouched | internal/webhooks/dispatcher.go:73-95 | processing one webhook changes no record but those of its own job |
| Dispatcher.HooksIgnoreTime | internal/webhooks/dispatcher.go:63-97 | neither the clock nor recorded times influence what processing an event does |
| Dispatcher.EventConverges | internal/webhooks/dispatcher.go:63-176 | processing an event cut after any store write and run again gives the materializations and deliveries of one uninterrupted run, timestamps aside |
| Dispatcher.CrashesDoNotMatter | internal/webhooks/dispatcher.go:63-176 | the same for any number of cut runs |
| Dispatcher.RunTwiceIsRunOnce | internal/webhooks/dispatcher.go:63-97 | a run on an event that was completely processed writes nothing |
| Dispatcher.HooksKeep | internal/webhooks/dispatcher.go:63-97 | a run settles every listed webhook that matches, and never unsettles anything |
| DispatcherResults.PassedOverIsUntouched | internal/webhooks/service.go:384-392 | a webhook that is disabled, or of another tenant or database, or lists neither * nor the kind of the event, or other object types only, costs no write and changes nothing |
| DispatcherResults.AskedIsDealtWith | internal/webhooks/dispatcher.go:73-95 | any other webhook has, after a run that gets through, a skipped materialization, or a rendered or failed one and a delivery |
| DispatcherResults.RunIsTrue | internal/webhooks/dispatcher.go:99-176 | a run over all webhooks, cut anywhere or not, keeps what is on record about a webhook true: the context is what the data plane makes of this event, the fate what the revision's script makes of that context, the delivery goes to the webhook's URL with the script's payload |
| DispatcherResults.EventIsTold | internal/webhooks/dispatcher.go:63-176 | however often the process died on an event: after a run that gets through nothing is on record about a webhook it passes over, and any other has what its own script made of this very event, and a delivery of that to its own URL unless the script passed it over |
| Dispatcher.PollEventCursor | internal/webhooks/dispatcher.go:49-59 | an undisturbed poll saves the cursor only after an event has been dealt with for every listed webhook, and then never meets a conflict |
| DispatcherService.Loop.CreateNew | internal/webhooks/dispatcher.go:255-263 | creates a delivery, and takes an existing one for success |
| DispatcherService.Loop.LoadOrMaterialize | internal/webhooks/dispatcher.go:99-128 | keeps a stored materialization, otherwise stores a new one, or fails without writing |
| DispatcherService.Loop.TransformMaterialization | internal/webhooks/dispatcher.go:130-162 | settles a stored materialization as skipped, rendered or failed and then creates the delivery that belongs to it |
| DispatcherService.Loop.EnsureDelivery | internal/webhooks/dispatcher.go:164-176 | creates the delivery of an already settled materialization, dead at the transform stage if the transform failed |
| DispatcherService.Loop.ProcessOne | internal/webhooks/dispatcher.go:73-95 | a webhook that has nothing to do with the event is left alone, any other is dealt with unless the run stops; write by write as the specification says |
| DispatcherService.Loop.ProcessEvent | internal/webhooks/dispatcher.go:63-97 | the loop over all webhooks equals the function of the specification, wherever the process dies; webhooks of other scopes, kinds or object types and disabled ones are untouched, and all others are dealt with if the loop gets through |
| DispatcherService.Loop.PollEvent | internal/webhooks/dispatcher.go:49-58 | process one event, then compare-and-swap the cursor |
| DispatcherService.Loop.PollOnce | internal/webhooks/dispatcher.go:39-61 | the loop over the page equals the specification, and the cursor ends at the last event processed, one version for each |
| DispatcherService.Loop.Deliver | internal/webhooks/dispatcher.go:212-245 | the fields after one attempt: completed on 2xx, dead at the eighth failure, otherwise retry after the backoff |
| DispatcherService.Loop.DeliverDue | internal/webhooks/dispatcher.go:178-210 | the loop over the listing equals the delivery pass of the specification; a whole pass tries the first deliveries that are due, as many as the limit allows or 100 for a limit of zero or less, each once, and no others |
| DispatcherRuns.EventRuns | internal/webhooks/dispatcher.go:63-97 | left alone, the state machine walks an event to the end of its list with exactly the store that processing the event computes |
| DispatcherRuns.PollRuns | internal/webhooks/dispatcher.go:39-61 | left alone, the state machine polls a page, event after event, each with its cursor save, to exactly the store that the poll computes |
| DispatcherRuns.DrainRuns | internal/webhooks/dispatcher.go:178-210 | with time passing and answers coming in, the state machine drains a listing to exactly the store that the delivery pass computes |
| WebhookStorage.RegisterIsTransaction | internal/webhooks/service.go:52-65 | registering is the transaction of two puts that must be new, webhook and first revision: accepted in the same cases, same effect |
| WebhookStorage.EditIsTransaction | internal/webhooks/service.go:96-189 | updating and rotating the secret are the transaction of a new revision and the compare-and-swap of the webhook: accepted in the same cases, same effect |
| WebhookStorage.DisableIsTransaction | internal/webhooks/service.go:136-150 | disabling is the compare-and-swap put of the webhook |
| WebhookStorage.ReplayIsTransaction | internal/webhooks/service.go:203-229 | replaying a dead delivery is the compare-and-swap put of its record |
| WebhookStorage.StoreMaterializationIsTransaction | internal/webhooks/dispatcher.go:99-128 | storing a materialization is the put of a record that must be new |
| WebhookStorage.SettleIsTransaction | internal/webhooks/dispatcher.go:265-269 | settling a materialization is the compare-and-swap put of its record |
| WebhookStorage.CreateIsTransaction | internal/webhooks/dispatcher.go:255-263 | creating a delivery is the put of a record that must be new |
| WebhookStorage.RecordIsTransaction | internal/webhooks/dispatcher.go:203-207 | recording an attempt is the compare-and-swap put of the delivery listed |
| WebhookStorage.SaveCursorIsTransaction | internal/webhooks/dispatcher.go:283-287 | saving a cursor is the compare-and-swap put of its record |
| WebhookStorage.PutAnswers | internal/webhooks/dispatcher.go:255-263 | a put of the pipeline that the versioned store does not accept is answered with a conflict, and only such a put |
| WebhookRetry.PassPays | internal/webhooks/dispatcher.go:186-209 | a delivery pass never stops on an error, keeps every record in a state that occurs, and each recorded try costs an attempt, even if the pass is cut |
| WebhookRetry.DuePassTries | internal/webhooks/dispatcher.go:186-209 | a whole pass tries something whenever one of the deliveries it lists is due when its turn comes |
| WebhookRetry.PassTriesAsMany | internal/webhooks/dispatcher.go:186-209 | a whole pass tries as many deliveries as are due when their turn comes, or as many as the batch has room for |
| WebhookRetry.PassTriesTheDue | internal/webhooks/dispatcher.go:186-209 | namely the first ones on the listing that are due, each with one attempt, and leaves all others as they are |
| WebhookRetry.PassesPay | internal/webhooks/dispatcher.go:178-245 | over any run of passes, whole or cut, the whole ones that find something due are at most as many as there were attempts left |
| WebhookRetry.RetryingEnds | internal/webhooks/dispatcher.go:178-245 | as many passes as there were attempts left, each finding something due as long as something is live, leave only completed and dead deliveries |
| WebhookRetry.RetryingEndsInTime | internal/webhooks/dispatcher.go:178-245 | by the clock, whatever each pass finds: once passes have gone on for the attempts left times (128 seconds + g), whole passes being at most g apart, every delivery is completed or dead |
| WebhookRetry.AtMostEightEach | internal/webhooks/dispatcher.go:239-242 | there are never more attempts left than eight for each delivery |
| WebhookSafety.AttemptSpacing | internal/webhooks/dispatcher.go:239-244 | each failure keeps the next attempt at least 2^(n+1)-2 seconds after the first, and the eighth failure 254 seconds |
| WebhookSafety.StepKeeps | internal/webhooks/dispatcher.go:39-210 | every step of dispatcher, service calls, clock, feed and crashes keeps the invariant and undoes nothing |
| WebhookSafety.RunKeeps | internal/webhooks/dispatcher.go:39-210 | so does every run |
| WebhookTheorems.NoEventIsLost | internal/webhooks/dispatcher.go:39-97 | for every event at or below the saved cursor, each webhook that the cursor-advancing poll had listed and that is enabled, of the event's scope, and asks for its kind and object type has, at the revision listed, a skipped materialization, or a rendered or failed one whose delivery is present |
| WebhookTheorems.LooksIfAsked | internal/webhooks/dispatcher.go:73-79 | the dispatcher goes past a webhook that has nothing to do with the event and looks up the revision of any other |
| WebhookTheorems.CursorMovesOverItsList | internal/webhooks/dispatcher.go:53-58 | only the end of a walk over the whole list moves a cursor, to exactly the event walked, and the list is the one remembered |
| WebhookTheorems.SteadyWebhookMissesNothing | internal/webhooks/dispatcher.go:39-97 | a webhook on record that nobody changes misses no event the cursor passes that is of its scope and that it asks for: it is skipped by its script or has a delivery with what was rendered |
| WebhookTheorems.RenderedIsSent | internal/webhooks/dispatcher.go:130-176 | a rendered materialization never changes, and its delivery carries exactly its payload in every later state |
| WebhookOrigins.MaterializationsAreAskedFor | internal/webhooks/dispatcher.go:99-162 | over every run: each materialization belongs to a webhook that was on record and an event of its tenant and database that it had asked for, its context is what the data plane makes of that event, and its fate what the webhook's revision makes of that context |
| WebhookOrigins.DeliveriesAreAskedFor | internal/webhooks/dispatcher.go:130-176 | over every run: each delivery goes to the URL of a webhook that was on record and had asked for the event |
| WebhookTheorems.RevisionsContiguous | internal/webhooks/service.go:32-67 | under any interleaving of Register, Update, RotateSecret and Disable the stored revisions of a webhook are exactly 1 up to its active one |
| WebhookTheorems.RevisionsImmutable | internal/webhooks/service.go:96-189 | a stored revision never changes and an active revision never goes back |
| WebhookTheorems.EditsInherit | internal/webhooks/service.go:112-172 | from one revision to the next the signing secret stays, or the script and its limits do |
| WebhookCalls.RegisterTakesEffect | internal/webhooks/service.go:32-67 | a registration under a new ID is on record as given, with its script as revision 1; under a known ID it changes nothing |
| WebhookCalls.UpdateTakesEffect | internal/webhooks/service.go:96-134 | an update of a webhook that has not changed since it was read puts everything on record as asked, enabled, the script as the next revision with the secret of the last; otherwise nothing changes |
| WebhookCalls.RotationTakesEffect | internal/webhooks/service.go:152-189 | a rotation makes the new secret the next revision with the script of the last, or changes nothing |
| WebhookCalls.DisableTakesEffect | internal/webhooks/service.go:136-150 | disabling a webhook that has not changed since it was read only disables it; otherwise nothing changes |
| WebhookCalls.ReplayQueuesAllDead | internal/webhooks/service.go:203-229 | a replay that is left alone queues every dead delivery on its listing again, due at once, with no attempts, to the same URL with the same payload, and touches nothing else |
| WebhookTheorems.ReachableStoresAreSound | internal/webhooks/dispatcher.go:178-245 | every reachable store meets what the results on delivery passes ask of it: statuses and attempts that occur, and no live delivery due later than 128 seconds from now |
| WebhookTheorems.RevisionAlwaysFound | internal/webhooks/dispatcher.go:247-253 | whoever looks up the revision of a materialization, of a delivery, of the webhook being processed or of a webhook just read finds it |
| WebhookTheorems.AttemptsByStatus | internal/webhooks/dispatcher.go:212-245 | pending means 0 attempts, retry 1 to 7, completed 1 to 8, dead exactly 8 at the delivery stage and 0 at the transform stage |
| WebhookTheorems.CompletedIsFinal | internal/webhooks/dispatcher.go:195-197 | a completed delivery never changes again |
| WebhookTheorems.DeadIsLeftByReplayOnly | internal/webhooks/service.go:203-229 | only a replay step changes a dead delivery, and it queues it with no attempts |
| WebhookTheorems.PostsAreBounded | internal/webhooks/dispatcher.go:178-245 | requests per delivery: at most 8 for its creation and 8 for each replay, one more for each pass cut between request and record, and one that may be out |
| WebhookTheorems.EighthFailureIsLate | internal/webhooks/dispatcher.go:303-309 | with a monotone clock a delivery that died of failed attempts did so at least 254 seconds after the first of them |
| Environment.KeyIsBeforeEquals | internal/deployment/upgrade.go:240-243 | the key of a line is what stands before its first equals sign, and a line without one has none |
| Environment.RewriteFound | internal/deployment/upgrade.go:237-251 | the first loop refuses exactly if a found key has a value with a line break, otherwise rewrites exactly the lines of replaced keys in place and knows which keys were found |
| Environment.AppendMissing | internal/deployment/upgrade.go:252-256 | the second loop appends every key that was not found once, in whatever order the map yields |
| Environment.ReplaceEnvironment | internal/deployment/upgrade.go:236-258 | the whole rewrite: error exactly in the refused case, otherwise rewritten lines in order followed by the missing keys |
| Environment.ReplacementHolds | internal/deployment/upgrade.go:236-258 | read back line by line, every replaced key is set to its new value and nothing else, all other lines are where they were, and nothing is left to replace |
| Environment.ReplacingTwiceIsReplacingOnce | internal/deployment/upgrade.go:236-258 | replacing again gives the same file |
| Environment.OtherKeysStay | internal/deployment/upgrade.go:239-251 | a key that is not replaced keeps its value |
| Environment.SetsEveryKeyIffCleanlyAdded | internal/deployment/upgrade.go:252-256 | the code checks values only for keys it finds: all replaced keys end up set if and only if the appended ones keep to one line and have no equals sign in the key |
| Releases.FixedMeansPinned | internal/deployment/deployment.go:338-349 | the check on images accepts exactly a name, @sha256: for the first time, and 64 digits 0-9 a-f |
| Releases.CompatibleIs | internal/deployment/deployment.go:367-384 | a release is compatible exactly with protocol 1, data format 1, schema 1 and bundle 2 |
| Releases.ChangeMoves | internal/deployment/upgrade.go:150-157 | a change makes the target current and puts what was current on top of the history, of which the latest ten stay; a rollback takes its target off the history first |
| Releases.HistoryStaysBounded | internal/deployment/upgrade.go:150-157 | over any sequence of permitted upgrades and rollbacks Previous has at most ten entries and its last entry is not the current release |
| Releases.TwoRollbacksRestore | internal/deployment/upgrade.go:100-111 | two rollbacks restore Release and Previous exactly, if and only if the current release was not the last entry of its own history |
| Deployment.LoadedIsWritten | internal/deployment/deployment.go:224-245 | the manifest can be read exactly if it is there and well formed; it is read as written, with numbers left out taken as protocol 1, data format 1, schema 1 and bundle 2 |
| Deployment.BackupVerifies | internal/deployment/backup.go:256-295 | a backup of a complete configuration passes verification exactly if its volume holds no links |
| Deployment.ContainedStays | internal/deployment/backup.go:316-319 | a path that the check on archives lets pass leads to a place below the directory it is unpacked in |
| Deployment.EscapesExactly | internal/deployment/backup.go:316-319 | the check refuses exactly the absolute paths and those that leave some directory they are unpacked in |
| Deployment.ImagesSet | internal/deployment/upgrade.go:158-164 | rewriting a file that sets both images appends nothing and sets both to the new ones |
| Deployment.UncheckedImage | internal/deployment/upgrade.go:252-256 | a control image with a line feed in front of its digest passes the checks on releases; if .env does not name a control image yet, the replacement is accepted and does not set it |
| Deployment.ChangeAgrees | internal/deployment/upgrade.go:150-171 | after the four files of a change are written the images in .env equal those of the release in the manifest |
| Deployment.NewKeyAgrees | internal/deployment/access.go:30-38 | a new operator key leaves the images of .env and manifest in agreement |
| Maintenance.Host.WriteFile | internal/deployment/deployment.go:417-426 | a write sets one file, or fails and leaves that file alone or with any content |
| Maintenance.Host.CopyConfig | internal/deployment/backup.go:95-111 | succeeds exactly if all six configuration files are there and each of six steps goes well; the copy holds every file as it is |
| Maintenance.Host.Backup | internal/deployment/backup.go:52-162 | succeeds exactly if there is a manifest with project and Core image, every configuration file is there, nobody has used the destination, and all twelve steps go well; then it holds the configuration and the volume on which the services were started again; a failed one changes no file and no earlier backup, but may leave its destination begun, where no backup will be made; if the services ended up down, the last step, stopping or starting them, failed |
| Maintenance.Host.CheckArchive | internal/deployment/backup.go:297-325 | accepts exactly the archives without links and without absolute paths or paths that lead out |
| Maintenance.Host.VerifyBackup | internal/deployment/backup.go:256-295 | accepts exactly the backups of the known format whose data and configuration files have the recorded hashes, whose paths stay inside, and that hold no links |
| Maintenance.Host.Reinstall | internal/deployment/backup.go:219-253 | succeeds exactly if all its steps do; then the configuration is the one of the backup and the services start on its data |
| Maintenance.Host.Restore | internal/deployment/backup.go:179-254 | without a safety backup it succeeds exactly if the backup fits and all steps go well; a backup that does not fit changes nothing; environment and manifest still agree |
| Maintenance.Host.RestoreOldFiles | internal/deployment/upgrade.go:144-149 | tries all four writes; if each succeeds the files are as before |
| Maintenance.Host.RestoreFailedRelease | internal/deployment/upgrade.go:217-234 | succeeds exactly if all its steps do and the data holds no links; then files and data are those of the backup |
| Maintenance.Host.Pull | internal/deployment/upgrade.go:199-206 | succeeds exactly if both images can be pulled |
| Maintenance.Host.CheckMigration | internal/deployment/upgrade.go:208-215 | succeeds exactly if the releases agree in protocol and data format and the target's own check goes well |
| Maintenance.Host.Prepare | internal/deployment/upgrade.go:114-143 | succeeds exactly if the releases agree in protocol and data format, a backup is possible, and all nineteen steps go well |
| Maintenance.Host.ChangeRelease | internal/deployment/upgrade.go:114-197 | completes exactly if the releases agree in protocol and data format, a backup is possible, the environment takes the new images and all 26 steps go well; a failure before the first write changes no file; a failed write of .env is left as it is; a later failure is undone: all files as before, and after a failed command the services run on the data of the backup; the undoing succeeds exactly if its own steps do and the volume holds no links; in every other case than a failed preparation or undoing the services run |
| Maintenance.Host.Upgrade | internal/deployment/upgrade.go:34-76 | completes exactly if the release resolved is the version asked for, genuine, pinned, compatible and not the current one, the current one has protocol 1 and data format 1, a backup is possible, the environment takes the images and all 26 steps go well; then the manifest is the old one with that change, and environment and manifest agree |
| Maintenance.Host.Rollback | internal/deployment/upgrade.go:86-112 | completes exactly if there is a previous release, the latest of them is pinned and compatible, the current one has protocol 1 and data format 1, a backup is possible, the environment takes the images and all 26 steps go well; then the manifest is the old one rolled back, and environment and manifest agree |
| Maintenance.Host.SetAPIKey | internal/deployment/access.go:12-39 | succeeds exactly for a key of 8 to 512 characters without blanks, if the manifest can be read, there is an environment, and both steps go well; it sets the key line, touches no other file, and keeps environment and manifest in agreement |
| Sorting.SortKeys | internal/dataplane/canonical.go:56-60 | the keys of a map in byte order, each once, in whatever order the map yields them |
| Sorting.SortedUnique | internal/dataplane/canonical.go:60 | sorting gives the same sequence whatever the order of traversal |
| Sorting.SortByKey | internal/control/barq.go:112 | records in the order of their keys, each once |
| CanonicalJson.StringComesBack | internal/dataplane/canonical.go:36-38 | every string is read back from its escaped form |
| CanonicalJson.EscapeIs | internal/dataplane/canonical.go:36-38 | escaped are exactly the quotation mark, the backslash, the controls below U+0020, <, >, & and the two line separators; five controls have a short form, all others are written as a backslash, u and four hexadecimal digits |
| CanonicalJson.TextIsSafe | internal/dataplane/canonical.go:36-38 | the text of a string has none of those characters but quotation marks and backslashes |
| CanonicalJson.NumberComesBack | internal/dataplane/canonical.go:39-40 | every number token of the RFC 8259 grammar is read back where it ends |
| CanonicalJson.ValueComesBack | internal/dataplane/canonical.go:30-99 | a parser reads every value back from its canonical text, whatever follows it |
| CanonicalJson.CanonicalDetermines | internal/dataplane/canonical.go:30-99 | two values have the same canonical text if and only if they are equal |
| CanonicalJson.WriteCanonical | internal/dataplane/canonical.go:30-99 | the recursive writer appends exactly the canonical text to the shared buffer |
| CanonicalJson.WriteArray | internal/dataplane/canonical.go:74-84 | the loop over items appends the canonical text of an array |
| CanonicalJson.WriteObject | internal/dataplane/canonical.go:55-73 | the loop over sorted keys appends the canonical text of an object, independent of the map order |
| CanonicalJson.CanonicalJSON | internal/dataplane/canonical.go:13-19 | the result is the canonical text and the value can be read back from it |
| KeyRegistry.ScopeErrorIs | internal/auth/manager.go:534-555 | a scope is open exactly if it is everything, or a registered, enabled tenant with all or one of its databases; not found exactly for a well-formed scope of an unknown tenant, otherwise invalid |
| KeyRegistry.CreateTakesEffect | internal/auth/manager.go:389-405 | exactly one key is added, enabled, under the first of five digests that is free, with the title, tenant and database trimmed and the actions normalized; or nothing changes, with the code of the check that failed |
| KeyRegistry.UpdateTakesEffect | internal/auth/manager.go:407-449 | the key that the ID names has what was asked for, is otherwise as before and one version on, and all other keys are as before; or nothing changes: invalid without any change, for a bad title or bad actions, not found for an unknown ID, conflict if it would take the last global administrator |
| KeyRegistry.RevocationDisables | internal/auth/manager.go:452-456 | a revocation that is not refused leaves the key named disabled, and that is all; it is refused exactly for an unknown ID and for the last global administrator |
| KeyRegistry.RotateTakesEffect | internal/auth/manager.go:460-491 | the key named is disabled and one with its title, scope and actions is added under the first free identity; or nothing changes, with the code of the check that failed |
| KeyRegistry.Manager.GetKey | internal/auth/manager.go:502-517 | finds the key with the ID whose digest comes first, and none exactly if no key has the ID |
| KeyRegistry.Manager.EnsureAnotherRoot | internal/auth/manager.go:582-593 | succeeds exactly if a key with another ID is a global administrator |
| KeyRegistry.Manager.NewIdentity | internal/auth/manager.go:557-580 | takes the first of five random identities whose digest is free |
| KeyRegistry.Manager.CreateKey | internal/auth/manager.go:389-405 | adds one enabled key as asked under a fresh digest, or changes nothing and says why |
| KeyRegistry.Manager.ChangeFields | internal/auth/manager.go:417-439 | title, actions and enabled as asked, everything else as before, or the first error in the order of the code |
| KeyRegistry.Manager.UpdateKey | internal/auth/manager.go:407-449 | the key named is as asked and all others as before, or nothing changes and the code says why |
| KeyRegistry.Manager.RevokeKey | internal/auth/manager.go:452-456 | the key named is disabled unless it is the last global administrator, which is a conflict; an unknown ID is not found |
| KeyRegistry.Manager.RotateKey | internal/auth/manager.go:460-491 | disables the key named and adds the replacement in one step, or changes nothing and says why |
| KeyRegistry.UpdateKeeps | internal/auth/manager.go:407-449 | an update leaves an administrator if there was one, even if keys share an ID |
| KeyRegistry.RotateReplaces | internal/auth/manager.go:460-491 | a rotation disables the old key and adds one with the same title, scope and actions under an unused digest; every other key stays |
| KeyRegistry.RotateKeepsNumber | internal/auth/manager.go:460-491 | a rotation leaves as many global administrators as there were |
| KeyRegistry.LastAdminSurvives | internal/auth/manager.go:389-491 | once there is an enabled key for every tenant, database and action, no sequence of create, update, revoke and rotate leaves the server without one |

## Left out

- HTTP routing, handlers, the data-plane client, the web console, command-line parsing: plumbing.
- The native database below the store, SHA-256, HMAC signatures, scripts, docker, tar and gzip: functions or step outcomes given to the model.
- `OperationalHealth`, the tenant operations, `Plan`, `Test` and `Schema`: they only read, or would add easy members.
- `Restore` of sync rules is an Apply with the rules of a stored revision; the state machine allows an Apply with any rules.
- Validation of webhook registrations, URLs, domains and tenant names, and the normalization of names, events and actions: short case splits.
- Timestamps, apart from the next attempt of a delivery and the creation time that two pending records must share to be the same.
- Decode errors of stored records: encoding is lossless.
- Integer wrap-around of revisions and versions.
- Death of the process in the middle of a release change: the code recovers from failed steps, not from its own crash there.
- What a partly written backup directory contains, file modes and the maintenance lock: a destination that was begun is only known to be taken, and commands do not overlap.
- Bootstrap of keys and tenants, remote backups, schedules, health checks and retention.
- Invalid UTF-8 and number values that are no JSON numbers in canonical JSON: the encoder replaces or rejects them elsewhere.
- Maintenance.Host.Backup: does not tell which services a failing stop command had stopped already, because the code leaves them as they are; the model takes them for down.
- CanonicalJson.WriteCanonical: takes numbers as JSON number tokens, because floating-point formatting, typed numbers and the re-encoding of other types in the default branch are Go's own encoder.
- CanonicalJson.CanonicalJSON: has no error result, because errors come only from that encoder.
- WebhookRetry.RetryingEnds: asks each pass to find something due as long as something is live; `WebhookRetry.RetryingEndsInTime` does without.
- SyncRecovery.RecoveryDrains: leaves out late requests, which `SyncLate.RecoveryEnds` and `SyncLate.RecoveredIsRecorded` admit.
- SyncRecovery.InterruptionsDoNotMatter: leaves out late requests, because which rules win then depends on when they arrive.
- SyncRecovery.StopsIffBlocked: leaves out late requests, which `SyncLate.AskFailsIffOvertaken` admits.
- SyncService.ReconcileSettles: leaves out late requests, like the result it rests on.
- WebhookTheorems.PostsAreBounded: counts an attempt whose request could not be built as a request, so the bound is on the safe side.
