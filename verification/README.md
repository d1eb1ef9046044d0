# Notification pipeline: model and proofs

This project models the path of an event through the service, from the webhook that announces it to the WebSocket of
the citizen it concerns, and the read marks on the notifications it leaves. `dafny verify dfyconfig.toml` checks
everything.

The path: a webhook delivery is stored in one transaction as a notification and an outbox row, at most once per
idempotency key (`internal/webhook`, `internal/repo/webhook.go`). Competing workers claim outbox rows with
`FOR UPDATE SKIP LOCKED`, publish them to Redis inside the claiming transaction, mark them, commit, and then push
(`internal/notify/worker.go`, `internal/repo/outbox.go`). A subscriber hands Redis messages to an in-process hub, which
queues them for the WebSocket clients of the citizen (`internal/notify/subscriber.go`, `internal/wsbus`). The REST API
lists notifications page by page and marks them read (`internal/httpapi/notifications.go`,
`internal/repo/notifications.go`).

## How it is built

Each concurrent part has two forms. A *machine* of small steps gives every interleaving: transactions that abort at any
point, commits whose acknowledgement is lost, locks, onces, channel operations. Invariants of a machine hold in every
state that any run reaches. *Classes* give the code itself, with its fields, loops and error returns; each method is
proved to carry out a run of the machine (or one exact step of a model), to take precisely the steps its code takes, and
to report an error exactly when a statement has failed. What the machine's theorems say therefore holds of the code.

| part | machine | proofs | classes |
|---|---|---|---|
| outbox and workers | `Outbox.dfy` | `OutboxInvariant`, `OutboxSteps`, `OutboxTheorems`, `OutboxClaims`, `OutboxLedger`, `OutboxProgress`, `Backoff`, `Retry` | `Backend.dfy`, `Worker.dfy` |
| webhook transaction | `Persist.dfy` | `PersistProofs`, `PersistTheorems`, `EventPayload` | `Service.dfy` |
| hub, one goroutine at a time | `HubModel.dfy` | `HubModel`, `TwoLevel` | `WsBus.dfy`, `Subscriber.dfy` |
| hub, goroutines interleaved | `HubSteps.dfy` | `HubStepProofs`, `HubTheorems`, `HubDelivery` | |
| the whole path | `Pipeline.dfy` | `PipelineTheorems`, `Channel` | |
| read marks and listing | `Inbox.dfy` | `InboxTheorems`, `Pagination` | `Notifications.dfy` |

## Assumptions

- PostgreSQL's row locks, unique indexes, COMMIT and ROLLBACK are atomic; a statement meeting a unique key of an open
  transaction waits for it; an UPDATE evaluates its condition again on a row it had to wait for.
- All workers run with the same `MaxAttempts` and the same retry delay.
- `time.Now()` and SQL `now()` read one clock that never goes back. `now()` is the start of the transaction.
- SHA-256 and HMAC are functions given as parameters; nothing assumes they are free of collisions.
- Reading a request body, checking its signature and decoding its JSON are parameters of the webhook service.
- A payload is an abstract document, because the `jsonb` column (`migrations/000003_event_outbox.up.sql:5`) does not keep
  bytes.
- `time.Parse` is a parameter; where a theorem needs it, the parameter accepts only texts made of the characters RFC 3339
  (section 5.6) allows, so none with a `|`.
- Redis may refuse a message, deliver it, or deliver it and lose the answer; a subscriber hears messages in the order of
  publication and may miss some.
- In the classes, `Interfere` stands for whatever other workers or requests do between two statements; its contract
  allows any run of theirs. `faults` counts the statements that have failed.

## What the code does against what is written about it

- `internal/wsbus/client.go:28` says a caller must Register and then Run. The only caller
  (`internal/httpapi/ws.go:50-51`) calls Run alone, which registers (`internal/wsbus/client.go:63-67`). The model
  follows the code.
- Dispatch sends after releasing the hub's lock, so its send can meet a channel another goroutine has closed meanwhile,
  which panics in Go. `HubTheorems.SendPanicsIff` says exactly when, `HubTheorems.SendCanPanic` gives a run. What is
  delivered with all steps interleaved is in `HubDelivery.InterleavedDelivery`.
- Register does not look whether its client has ended. Only a second Run of one client could bring that about, and
  there is none; `HubModel.RegisterAgainIff` says when a second Register would leave a closed channel in the index.
- A repeated delivery is meant to change nothing. It can add a `citizens` row, because the key leaves out the CPF and
  `EnsureCitizenID` runs first; a later notification of that citizen then carries the id the repeat drew.
  `PersistTheorems.RepeatChangesCitizenId` gives such a run of the concurrent transactions,
  `PersistTheorems.RepeatsChangeNoRowIff` the condition: every citizen of a kept delivery was first seen in a delivery
  that is kept too.
- `docs/notifications.md:67` lists an id that is not a UUID under 404, line 68 under 400. The code answers 400
  (`internal/httpapi/notifications.go:84-88`), unless the citizen is unknown, which is looked at first.
- The canonical text of the idempotency key is not injective on all valid payloads, because fields may hold `|`.
  `EventPayloads.CollisionIff` says exactly which valid payloads share their text with one that differs in any of the
  four fields: those whose text other bars also cut into four acceptable fields. A bar-free `chamado_id` and
  `status_novo` on one side are not enough (`EventPayloads.CollisionAcrossTimestamps`); on both sides they are
  (`EventPayloads.CanonicalInjective`), and so is a payload without any bar against all others
  (`EventPayloads.SafeWithoutBars`).

## Model

| member | source | states |
|---|---|---|
| OutboxSteps.StepInv | internal/notify/worker.go:63-107 | every step of every worker keeps the invariant that ties rows, row locks, local copies, uncommitted marks and publish counts together |
| OutboxTheorems.PublishAccounting | internal/notify/worker.go:80-107 | in every reachable state a row's acknowledged publishes are 1 if it is `sent`, plus the aborted batches that had published it, plus 1 if an open batch has |
| OutboxTheorems.SentMeansPublished | internal/notify/worker.go:82-88 | a `sent` row is in Redis's log on its citizen's channel; its acknowledged publishes are one more than the aborted batches that had an acknowledged publish of it |
| OutboxTheorems.PushedAtMostOnce | internal/notify/worker.go:78-105 | no run pushes a row twice, or one whose `sent` mark is not committed |
| OutboxTheorems.CommitQueuesSentRows | internal/notify/worker.go:87-105 | the jobs after an acknowledged commit are the batch's rows marked `sent`, in order; a lost acknowledgement commits the same rows and yields no job |
| OutboxTheorems.CommitMarksJobsSent | internal/notify/worker.go:83-103 | after the commit a row of the batch is `sent` if and only if it is a job |
| OutboxTheorems.ClaimsDisjoint | internal/repo/outbox.go:35-42 | no row is claimed by two open batches |
| OutboxTheorems.MarkIsCurrent | internal/notify/worker.go:90-96 | when a row is marked, the worker's copy of it equals the stored row, still pending: the count it decides by is the one SQL increments |
| OutboxTheorems.StepRows | internal/repo/outbox.go:61-82 | only commits rewrite rows, only pending ones, and no step removes a row or changes what it is about |
| OutboxTheorems.CommitWrites | internal/repo/outbox.go:60-84 | column by column what a commit writes: an acknowledged row is `sent` at the transaction's time; any other has one attempt more and, while attempts are left, a next_attempt_at of its failure's time plus the delay for the new count, else `dead` with next_attempt_at kept; no other row changes |
| OutboxTheorems.TerminalRowsStay | internal/repo/outbox.go:61-82 | `sent` and `dead` rows never change again in any run, although the UPDATEs do not test the status |
| OutboxTheorems.AttemptBudget | internal/notify/worker.go:90-91 | a row is `dead` if and only if it has used MaxAttempts, otherwise it has used fewer, one per recorded failure; it has a sent_at if and only if it is `sent` |
| OutboxTheorems.OnlyCommitsChangeRows | internal/notify/worker.go:63-100 | a run without commits changes no row in any column: aborted batches cost no attempt |
| OutboxTheorems.FailureSpacing | internal/repo/outbox.go:38 | the k-th recorded failure of a row is at least the first k-1 delays after the first |
| OutboxTheorems.RunLowersPotential | internal/notify/worker.go:80-102 | along any run without inserts, the attempts left over all pending rows drop by at least the rows of every committed batch |
| OutboxTheorems.BatchesAreBounded | internal/notify/worker.go:46-56 | N rows allow at most N times MaxAttempts committed non-empty batches, whatever Redis answers and however many abort |
| OutboxLedger.LedgerBalances | internal/repo/outbox.go:60-84 | along every run, inserts, aborts and lost acknowledgements included, the marks on the rows (one per recorded failure, one for `sent`) grow by exactly the rows the batches committed |
| OutboxLedger.SlotsAreUsedUp | internal/notify/worker.go:80-102 | without inserts every committed row uses up exactly one of the slots left: MaxAttempts less the marks, summed over all rows |
| OutboxLedger.CommitsReadOff | internal/notify/worker.go:46-56 | from the empty table, how many rows all batches have committed can be read off the table, and is at most N times MaxAttempts |
| OutboxLedger.TriesBalance | internal/notify/worker.go:80-102 | every publish of a row, whatever Redis answered, led to one of its marks, or its batch aborted, or its batch is still open |
| OutboxLedger.CopiesBounded | internal/notify/worker.go:82-98 | so a message that one row alone has is in Redis's log at most once for each of its recorded failures, once if `sent`, once for each aborted batch that had published it, and once for an open one |
| OutboxClaims.SelectTakesOldest | internal/repo/outbox.go:36-41 | a claim is in (created_at, id) order and every claimable row it leaves is younger |
| OutboxClaims.SelectTakesMany | internal/repo/outbox.go:32-40 | a claim takes as many rows as there are, up to the batch size raised to 1 |
| OutboxClaims.ClaimIsExact | internal/repo/outbox.go:31-57 | the step in terms of the columns: copies of pending, due, unlocked rows, oldest first, within the limit; every such row is taken unless the claim is full and all of it older |
| OutboxClaims.InsertedIsClaimed | internal/repo/outbox.go:20-42 | a row just inserted is taken by the first claim with room for all rows whose transaction began after the insert, as a row without attempts |
| OutboxProgress.DrainedIffExhausted | internal/notify/worker.go:46-56 | every row is `sent` or `dead` if and only if no run without inserts can commit a row any more |
| OutboxProgress.Drain | internal/notify/worker.go:46-56 | draining is always possible: from every reachable state, for every sequence of Redis answers, there is an insert-free run that leaves every row `sent` or `dead` |
| Backoff.BackoffFits | internal/notify/worker.go:137-143 | every delay is computed without int64 overflow if and only if the base is at most (2^63-1)/1024 |
| Backoff.BackoffExactIff | internal/notify/worker.go:142 | one delay is exact if and only if its exact value fits an int64 |
| Backoff.BackoffWraps | internal/notify/worker.go:142 | whatever the base, the delay is the int64 the exact product is congruent to modulo 2^64 |
| Backoff.BackoffMonotone | internal/notify/worker.go:137-143 | delays are positive, grow with the attempts and stay within 1024 times the base |
| Backoff.DelaysDouble | internal/notify/worker.go:137-143 | the delay is the base before any attempt, doubles with each of the first ten, and is 1024 times the base from then on |
| Retry.FailureTimes | internal/notify/worker.go:90-96 | in every run the k-th failure is at least base*(2^k-2) after the first up to k = 11, then 1024*base more for each |
| Retry.NextAttempt | internal/notify/worker.go:90-96 | a pending row that has failed is next due exactly one delay, that of its attempts so far, after its last failure |
| Backends.OthersKeep | internal/repo/outbox.go:35-42 | whatever the other workers do, a worker's session and the rows it holds stay as they are |
| Backends.UpdateIsMark | internal/repo/outbox.go:60-84 | an UPDATE by id, with the values the worker computed, is the machine's mark |
| Backends.Backend.SelectPendingOutboxForUpdate | internal/repo/outbox.go:31-57 | under interference it carries out one claim step, or fails and claims nothing; what it returns are pending, due rows it now holds, oldest first, and no due row is left unlocked unless the batch is full of older ones |
| Backends.Backend.ScanClaims | internal/repo/outbox.go:36-56 | the scan loop returns exactly the pending, due, unlocked rows in (created_at, id) order, cut at the batch size |
| Backends.Backend.MarkOutboxSent | internal/repo/outbox.go:60-67 | stages `sent` with sent_at at the transaction's time for the row with that id, in this transaction only, or fails |
| Backends.Backend.MarkOutboxPublishFailed | internal/repo/outbox.go:70-84 | stages attempts+1, the given time and status in this transaction only, or fails |
| Backends.Backend.Publish | internal/notify/worker.go:82 | under interference one publish step of the row in hand; the error tells exactly whether Redis acknowledged |
| Backends.Backend.Commit | internal/notify/worker.go:100-102 | commits in one step; an error means not committed or not acknowledged |
| Backends.Backend.Rollback | internal/notify/worker.go:68 | aborts an open transaction in one step and does nothing after its end |
| Backends.Backend.Push | internal/notify/worker.go:103-105 | one push step for the first waiting job |
| Workers.Worker.Normalise | internal/notify/worker.go:30-41 | non-positive settings are replaced by a batch of 1, 500 ms, 5 attempts and 200 ms, and no others |
| Workers.Worker.ProcessBatch | internal/notify/worker.go:63-107 | under any interference: claim, publish and mark each row, commit, push exactly the acknowledged rows; it fails exactly when a statement did, leaves no transaction open and then pushes nothing |
| Workers.Worker.PublishAll | internal/notify/worker.go:78-99 | the loop publishes and marks every row once in order, and the jobs are the rows Redis acknowledged |
| Workers.Worker.PublishAndMark | internal/notify/worker.go:81-98 | one row: one publish, then one mark with the answer, unless the statement fails |
| Workers.Worker.RecordSent | internal/notify/worker.go:83-88 | the success branch is one mark step and makes the row a job |
| Workers.Worker.Decide | internal/notify/worker.go:90-95 | the next attempt and the verdict `dead` are the machine's, computed from the worker's copy: `dead` when the new count reaches MaxAttempts, then with next_attempt_at kept, else the delay for the new count from now |
| Workers.Worker.RecordFailure | internal/notify/worker.go:90-98 | the failure branch is one mark step with that decision |
| Workers.Worker.PushAll | internal/notify/worker.go:103-105 | one push per job in order |
| Workers.Worker.Poll | internal/notify/worker.go:29-56 | every tick carries one batch through or meets a failing statement |
| PersistProofs.StepInv | internal/webhook/service.go:77-120 | every step of concurrent webhook transactions keeps the invariant |
| PersistTheorems.Serializable | internal/webhook/service.go:85-119 | whatever the interleaving, the tables are those of the committed deliveries handled one at a time |
| PersistTheorems.NotificationsMatchOutbox | internal/webhook/service.go:103-116 | notifications and outbox rows are in bijection with equal citizens |
| PersistTheorems.AnsweredAtMostOnce | internal/webhook/service.go:62-74 | per key at most one delivery is answered as new; the key has a notification if and only if one such commit happened, told or not |
| PersistTheorems.NeverDeadlocked | internal/repo/webhook.go:26-69 | while transactions are open, one of them can proceed |
| PersistTheorems.NotesAre | internal/repo/webhook.go:52-61 | the notification of a key is made from its first delivery, for the citizen of that delivery's fingerprint |
| PersistTheorems.RepeatsChangeNothing | internal/repo/webhook.go:42-69 | dropping all but the first delivery of each key gives the same notifications and outbox rows for the same people |
| PersistTheorems.RepeatsChangeNoRowIff | internal/repo/webhook.go:45-69 | they are equal id for id if every citizen of a kept delivery was first seen in a kept delivery, and only then when no two deliveries drew the same citizen id |
| PersistTheorems.RunsWithoutRepeats | internal/webhook/service.go:62-74 | both hold of the tables every run of the concurrent transactions leaves |
| PersistTheorems.DuplicateCommit | internal/repo/webhook.go:26-46 | in any reachable state a duplicate's commit leaves notifications and outbox alone, and adds a citizens row exactly for a person no committed delivery was from |
| PersistTheorems.OneEventEach | internal/webhook/service.go:91-114 | a notification and its outbox row are made from one and the same committed delivery, and their citizen id is that of its fingerprint and of no other |
| PersistTheorems.OnePersonEach | internal/repo/webhook.go:26-40 | in every reachable state a citizen id belongs to one fingerprint |
| PersistTheorems.RepeatChangesCitizenId | internal/repo/webhook.go:45-46 | a run in which a repeat decides the citizen id of a later notification |
| Services.Store.EnsureCitizenID | internal/repo/webhook.go:26-40 | finds or stages the fingerprint's row in one step, or fails while another transaction holds it |
| Services.Store.InsertNotification | internal/repo/webhook.go:51-68 | inserts under a free key, reports a taken one as duplicate, or fails while another transaction holds it |
| Services.Store.InsertOutbox | internal/repo/outbox.go:20-27 | stages one outbox row for the new notification, or fails |
| Services.Store.Commit | internal/webhook/service.go:116-119 | makes the transaction's rows visible in one step, heard of or not, or takes no step and leaves it open; success leaves the key's notification and its only answer |
| Services.Store.Rollback | internal/webhook/service.go:89 | takes exactly the abort of an open transaction, and no step of its own once that is over |
| Services.Service.InsertNotificationIdempotent | internal/repo/webhook.go:45-69 | the citizen first, then the notification |
| Services.Service.Persist | internal/webhook/service.go:77-120 | under any interference a whole transaction in order, for a delivery whose key is the digest of "v1" and the four fields; a new one leaves the notification and outbox row its own steps identify, a duplicate neither; on an error it never began, or its steps end with a rollback or with a commit whose acknowledgement was lost |
| Services.Service.Complete | internal/webhook/service.go:91-119 | the statements and COMMIT, or ROLLBACK after the one that failed |
| Services.Service.CommitOrRollback | internal/webhook/service.go:89-119 | exactly one of: committed; committed unheard, the deferred ROLLBACK without effect; not committed and rolled back |
| Services.FailedIsUnanswered | internal/webhook/service.go:116-119 | a failed transaction has no acknowledged commit and has not been left open |
| Services.Service.HandlePost | internal/webhook/service.go:36-75 | over-long, unauthenticated and invalid requests are answered as such and touch nothing; otherwise the transaction starts with the payload, the MAC of its eleven trimmed CPF digits and the digest of its four fields; `ok` means it inserted and committed rows that say, column by column, what the payload says, `duplicate` that the key was taken, 500 a failed transaction, which at most leaves the raw request as a dead letter |
| Services.KeysAgreeIff | internal/webhook/idempotency.go:10-14 | valid payloads without `\|` in chamado_id and status_novo get one key if and only if they agree in all four fields, for a digest without collisions |
| EventPayloads.BlankIff | internal/webhook/payload.go:25-32 | a required field counts as missing exactly when it is all white space |
| EventPayloads.SpaceIff | internal/webhook/payload.go:25-30 | white space is what Unicode calls so, code point by code point |
| EventPayloads.TrimSpaceIff | internal/identity/cpf.go:9-11 | trimming gives the one text that begins and ends with none of the white space around it |
| EventPayloads.ValidateIff | internal/webhook/payload.go:24-44 | a payload is valid if and only if six texts are not all white space, the CPF is eleven digits up to white space around them and the timestamp is readable; only the CPF is changed |
| EventPayloads.FieldsInjective | internal/webhook/idempotency.go:11 | without `\|` in the first three fields the canonical text determines all four |
| EventPayloads.CanonicalInjective | internal/webhook/idempotency.go:10-14 | so valid payloads without `\|` in chamado_id and status_novo have equal texts only with equal fields, whatever tipo holds |
| EventPayloads.CollisionIff | internal/webhook/idempotency.go:11 | a valid payload shares its text with a valid one differing in any of the four fields if and only if other bars of the text also cut it into four acceptable fields |
| EventPayloads.CollisionExample | internal/webhook/idempotency.go:11 | two valid payloads that differ in chamado_id and status_novo and share one text |
| EventPayloads.CollisionAcrossTimestamps | internal/webhook/idempotency.go:11 | two that differ in status_novo, timestamp and tipo, one of them without a bar in chamado_id and status_novo |
| EventPayloads.SafeWithoutBars | internal/webhook/idempotency.go:11 | a payload without a bar collides with no other |
| Channel.ChannelRoundTrip | internal/notify/channel.go:13-24 | parsing the channel of a citizen gives that citizen, for every UUID |
| Channel.ChannelSpelled | internal/notify/channel.go:13-15 | the channel's 50 characters one by one: the prefix, the UUID's 32 lower-case digits from the most significant on, and four dashes |
| Channel.ChannelInjective | internal/notify/channel.go:13-15 | different citizens have different channels |
| Channel.ParseAcceptsExactly | internal/notify/channel.go:18-24 | a channel parses to a citizen exactly when it is the prefix and that citizen's text in either letter case |
| HubModel.StepInv | internal/wsbus/hub.go:20-93 | every step of the sequential hub keeps the invariant |
| HubModel.Delivery | internal/wsbus/hub.go:51-71 | in every run what was queued for a client is the gap-free segment of its citizen's dispatches from registration to end; at most 16 wait; what reached the socket is a prefix, but for one message a failed write swallowed |
| HubModel.DispatchTo | internal/wsbus/hub.go:62-70 | a registered client of the citizen is queued the message if fewer than 16 wait and is ended, its queue unchanged, if 16 do; every other client is as it was |
| HubModel.EndedByDispatchIff | internal/wsbus/hub.go:65-69 | in every run a dispatch ends a registered client if and only if it is the citizen's and 16 messages wait |
| HubModel.ClosedStaysEmpty | internal/wsbus/hub.go:74-93 | after Close the hub stays empty under any further calls |
| HubModel.EndedStaysEnded | internal/wsbus/client.go:54-60 | a client once ended is never registered again and gets nothing more |
| HubModel.RegisterAgainIff | internal/wsbus/hub.go:21-33 | registering a known client again keeps the invariant if and only if it is registered or the hub is closed; otherwise it is back in the index with a closed channel |
| TwoLevel.WithIsUnion | internal/wsbus/hub.go:27-32 | the nested map after Register stands for the flat set with the client added |
| TwoLevel.WithoutIsDifference | internal/wsbus/hub.go:39-46 | after Unregister, for the set without it, no empty inner map left behind |
| TwoLevel.UnderIsFiltered | internal/wsbus/hub.go:57-61 | a citizen's inner map is exactly its clients of the flat set |
| WsBus.Hub.Register | internal/wsbus/hub.go:21-33 | adds the client under its citizen unless the hub is closed, a client that has ended included |
| WsBus.Hub.Unregister | internal/wsbus/hub.go:36-47 | removes the client, and is idempotent |
| WsBus.Hub.Dispatch | internal/wsbus/hub.go:51-71 | of the objects: the payload is appended to the channel of every registered client of the citizen with fewer than 16 waiting, the others of the citizen are closed and unregistered with their queues unchanged, no one else is touched |
| WsBus.Hub.Close | internal/wsbus/hub.go:74-93 | closes every registered client, leaves all queues and all others alone, empties the index, and does nothing the second time |
| WsBus.Client.Shutdown | internal/wsbus/client.go:54-60 | the first call unregisters and closes, later ones do nothing |
| WsBus.Client.Run | internal/wsbus/client.go:63-67 | registers, then starts the pumps |
| WsBus.Client.Offer | internal/wsbus/hub.go:65-69 | queues the message if fewer than 16 wait, else ends the client |
| WsBus.Client.WriteMessage | internal/wsbus/client.go:89-98 | takes the oldest queued message to the socket, or ends the client with it |
| WsBus.Client.EndWritePump | internal/wsbus/client.go:84-106 | a write pump that ends ends the client |
| WsBus.Client.EndReadPump | internal/wsbus/client.go:69-82 | a read pump that ends ends the client |
| Subscribers.Subscriber.RunOnce | internal/notify/subscriber.go:47-73 | the hub ends up as if every received message had been forwarded in turn |
| Subscribers.Subscriber.Receive | internal/notify/subscriber.go:59-70 | a message on a citizen's channel is dispatched to that citizen, any other is skipped |
| Subscribers.ForwardsInOrder | internal/notify/subscriber.go:60-71 | an open hub dispatches every readable message once, in order, and nothing else |
| Subscribers.SkippedAnyway | internal/notify/subscriber.go:63-69 | the early skip, folding letters as strings.EqualFold does, loses no message the parser would accept |
| HubStepProofs.StepInv | internal/wsbus/hub.go:20-93 | every lock, once, loop and channel step of any number of goroutines keeps the invariant |
| HubTheorems.ClosedIsUnregistered | internal/wsbus/client.go:54-60 | a closed channel belongs to an unregistered client; no queue exceeds 16 |
| HubTheorems.ClosedAtMostOnce | internal/wsbus/client.go:55-57 | no run closes a channel twice |
| HubTheorems.SnapshotWasTaken | internal/wsbus/hub.go:52-62 | a sending goroutine took its snapshot under its own read lock, at the step it remembers |
| HubTheorems.SendPanicsIff | internal/wsbus/hub.go:62-70 | a Dispatch's send meets a closed channel if and only if a different goroutine closed it after this Dispatch's snapshot |
| HubTheorems.SendCanPanic | internal/wsbus/hub.go:62-70 | a run in which it does |
| HubTheorems.DroppedWasFull | internal/wsbus/hub.go:65-69 | with all goroutines interleaved, a Dispatch shuts a client down only after an offer of its own that met 16 messages on an open channel |
| HubTheorems.NoOnceUnderLock | internal/wsbus/hub.go:21-47 | no goroutine holding the hub's mutex waits for anything, a client's once included |
| HubTheorems.WaitingIsAcyclic | internal/wsbus/client.go:54-60 | whoever is waited for has the lower rank: once, then reader, then writer |
| HubTheorems.NeverDeadlocked | internal/wsbus/hub.go:51-93 | from any waiting goroutine at most three waits lead to another that can step |
| HubTheorems.CallsEnd | internal/wsbus/hub.go:62-71 | without new calls a run takes at most the steps its goroutines have left |
| HubTheorems.StuckMeansDone | internal/wsbus/hub.go:88-92 | when no step of a call is left, every call has returned or panicked |
| HubDelivery.ActInv | internal/wsbus/hub.go:51-71 | every lock, once, loop and channel step of any goroutines, one of which dispatches, keeps the invariant that ties the contents of the channels to the dispatches |
| HubDelivery.InterleavedDelivery | internal/wsbus/hub.go:51-71 | with registrations, shutdowns and Close interleaved with the loop of the one dispatcher: what was queued for a client is the gap-free segment of its citizen's dispatches from its registration on, up to the present while it is registered and the dispatcher is not busy with it; at most 16 wait; what the write pump received came before them |
| Pipeline.StepInv | internal/webhook/service.go:107-116 | every step of the composed system keeps the link between its parts |
| Pipeline.CommitsAreFree | internal/repo/outbox.go:21-27 | the workers' table never stands in the way of a webhook commit |
| PipelineTheorems.NotificationsMatchRows | internal/webhook/service.go:103-119 | under any interleaving of webhooks and workers, notifications and outbox rows stay in bijection with equal citizens |
| PipelineTheorems.Isolation | internal/notify/subscriber.go:66-71 | everything ever queued for a client is, content and all, the payload made from a committed delivery whose fingerprint, and no other, has the client's citizen id; that delivery's notification and outbox row are of this citizen and the row carries the payload |
| PipelineTheorems.WrittenIsFor | internal/wsbus/client.go:84-98 | and so is everything written to its socket, person included |
| PipelineTheorems.QueuedInPublishOrder | internal/wsbus/hub.go:57-66 | a client's messages are a subsequence of its citizen's publishes, in order and none twice |
| PipelineTheorems.NothingMissedNothingLost | internal/notify/subscriber.go:47-73 | if the subscriber missed nothing, a client was queued every message of its citizen's channel from registration to its end |
| PipelineTheorems.RowsDiffer | internal/webhook/service.go:107-114 | no two outbox rows have the same message |
| PipelineTheorems.CopiesInRedis | internal/notify/worker.go:82-98 | so the bound on copies in Redis's log holds of every outbox row the webhook has stored |
| PipelineTheorems.SettingsAreValid | internal/notify/worker.go:29-41 | the service's own row maker and settings are an instance of the composed system, with payloads that name their notification |
| Inbox.StepInv | internal/repo/notifications.go:66-139 | every step of concurrent mark statements keeps the invariant |
| InboxTheorems.ReadExactlyOnce | internal/repo/notifications.go:68-81 | a read notification was reported newly read exactly once over all mark-one and mark-all calls, an unread one never |
| InboxTheorems.Conservation | internal/repo/notifications.go:117-139 | successful mark-ones plus all `updated` counts plus lost answers is the number of read rows |
| InboxTheorems.UnreadIsTheRest | internal/repo/notifications.go:142-148 | a citizen's unread count is its total less what its calls have marked |
| InboxTheorems.CommitCovers | internal/repo/notifications.go:117-139 | a mark-all leaves read everything it found unread, counts only its own changes and touches no other citizen |
| InboxTheorems.NoSharedRow | internal/repo/notifications.go:118-122 | no row is counted by two statements |
| InboxTheorems.ReadStays | internal/repo/notifications.go:70-71 | read_at is written once in any run |
| Notifications.Table.Update | internal/repo/notifications.go:69-73 | the UPDATE of both mark functions carries out one statement of the machine and reports exactly the rows it marked |
| Notifications.Table.MarkNotificationRead | internal/repo/notifications.go:68-81 | succeeds exactly on the citizen's own unread row, and changes that row alone |
| Notifications.Table.MarkAllNotificationsRead | internal/repo/notifications.go:117-139 | sets read_at of exactly the citizen's unread rows, counts them, and returns each chamado id as often as such rows have it |
| Notifications.Table.CountUnreadNotifications | internal/repo/notifications.go:142-148 | the number of the citizen's rows without read_at; with its read rows they make up all |
| Notifications.Table.ListNotificationsByCitizen | internal/repo/notifications.go:27-64 | with other statements running in between: the total of the first query; then as many rows as limit and offset leave, each with all its stored columns, the i-th being the citizen's row with offset + i newer ones |
| Notifications.Table.SelectPage | internal/repo/notifications.go:33-40 | the page is exactly that slice of the ordered ids |
| Notifications.FirstsExact | internal/httpapi/notifications.go:158-168 | each distinct non-empty chamado id is scheduled exactly once |
| Notifications.Api.ScheduleEach | internal/httpapi/notifications.go:158-168 | the loop schedules the ids in the order they first occur |
| Notifications.Api.HandleMarkRead | internal/httpapi/notifications.go:76-101 | which answer when, what the statement did to the table in every case, failures and lost answers included, and a notification upstream exactly on success |
| Notifications.Api.HandleMarkAllRead | internal/httpapi/notifications.go:146-171 | `updated` is the number of rows marked; upstream is called once for each distinct non-empty chamado id of the rows that were unread, and for no other, and not at all on failure |
| Pagination.EchoIsStable | internal/httpapi/notifications.go:214-237 | accepted windows have limits from 1 to 100, and the echoed window, sent back, gives itself |
| Pagination.TextIsDecimal | internal/httpapi/notifications.go:218-235 | the numbers these rows speak of are written in decimal, the last digit last |
| Pagination.NumbersAreRead | internal/httpapi/notifications.go:217-235 | decimal arguments give the limit clamped to 100 and the offset itself, or a refusal for limit 0 and for numbers beyond 64 bits, the limit judged first |
| Pagination.AbsentArguments | internal/httpapi/notifications.go:214-237 | an absent limit is 20 and an absent offset 0 |
| Pagination.SignedArguments | internal/httpapi/notifications.go:217-235 | a plus sign changes nothing and a negative number is refused |
| Pagination.OnlyNumbersPass | internal/httpapi/notifications.go:218-235 | a present argument that is not digits after at most one sign is refused |
| Pagination.NewestOrders | internal/repo/notifications.go:38 | the listing has every notification once, strictly descending |
| Pagination.NewestRank | internal/repo/notifications.go:38 | a notification's place in the listing is the number of newer ones |
| Pagination.WalkCovers | internal/httpapi/notifications.go:51-56 | walking by the echoed limit yields every notification of the citizen exactly once, newest first, for every requested limit |
| Pagination.WalkRequests | internal/httpapi/notifications.go:222-226 | and takes exactly the number of pages |

## Left out

- Integrations: push tokens and the HTTP clients behind the circuit breaker; a push and an upstream read notice are events.
- Routing, JWT, health, telemetry, configuration, migrations and device registration.
- Services.Service.HandlePost: reading the body up to its limit, the HMAC check and JSON decoding are parameters; the dead letter's error texts are not kept.
- The `last_error` text of an outbox row, and deletion of rows through ON DELETE CASCADE.
- The subscriber's reconnect backoff: `runOnce` never returns an error that would reach the doubling branch.
- Channel.ParseAcceptsExactly: `uuid.Parse` also takes three other text forms (urn, braces, no dashes); its source is not part of this model and no publisher writes them.
- Ping and pong timing, read limits and deadlines: a pump may end at any moment.
- HubModel.Delivery: Dispatch is one step there, and in Pipeline, which builds on it; HubDelivery has its steps.
- HubDelivery.InterleavedDelivery: one goroutine dispatches, as the one subscriber does; two at once would append to the queues in either order.
- The methods of Notifications run one statement at a time; the interleavings of statements are those of Inbox.
- Waiting of two mark-all statements for each other's rows, which PostgreSQL would end by aborting one: an abort is a step, the cycle is not modelled.
- The list, count and get handlers around their queries: one branch for an unknown citizen, one for a failure.
- Order of publishes across batches: retries and commits reorder them.
