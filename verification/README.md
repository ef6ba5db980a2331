# PlayBron: verified models of the offline pipeline, the worker and the booking kernel

PlayBron runs gaming clubs: an admin console that must keep working without a network, an API
over PostgreSQL, and a background worker that sends reminders and cancels unpaid bookings. This
project models the parts where concurrency, crashes and repetition make mistakes easy, and proves
what they keep over every run.

* **The offline command pipeline.** `Commands`, `Outbox`, `Backoff` and `OutboxStore` are the
  console's data and pure functions; `SyncEngine` is one tab's engine as a class over the store;
  `Idempotency` is the server's key table as a class. `OfflineClient`, `OfflineServer` and
  `OfflineSystem` join them into one step relation: any number of tabs crash, share one outbox and
  drain it from stale listings; requests and answers are lost, repeated and late; server
  transactions overlap and block on the unique key. `ApiClient` is the layer below, with its
  single-flight refresh and its one repeat after a 401; `Repeats` matches its sends with the protocol's.
  `DrainRefinement` and `CommandRefinement` show, by way of `WorldRuns`, that every uninterrupted
  drain pass and every `runCommand` of the engine continues any run of the protocol, by steps of its
  own and of the server.
* **The worker.** `Worker` is the per-club runner with its journal and every place where it can
  fail; `Expiry` interleaves the job that cancels unpaid bookings with the staff's decisions;
  `Notifications` is the deduplicating queue and the batch sender; `Schedule` and `NotifyTicks` are the time arithmetic
  and what the periodic jobs queue over any schedule of ticks; `ReminderClaims` is the concurrent
  claim with row locks.
* **The kernel in the database.** `Bookings` has the exclusion of overlapping bookings and the
  version trigger; `BookingDesk` the staff decisions that read, check and write it without a lock,
  overlapping in any way; `ShiftLedger` the closed-shift guard, for requests one at a time and
  overlapping.
* **Small algorithms.** `RateLimit`, `Backoff` and `Format`.

What each operation does is also stated in the columns of its rows, in plain numbers and texts, or by
an independent reading: the server's reading of a request, the instants that a booking covers, the
accounts of a drawer, the days counted one by one.

Objects that the original updates in place are classes whose methods are proved against
specification functions of the old state; the theorems are about those functions or about the
step relations, over all histories.

## Where the code does less than its comments say

Each is proved as the exact condition under which the code does keep its word, or shown by a
concrete run, or both; the code is modelled as it is.

* The journal tells an error by the truth value of its text. An exception without a text closes the
  row as `done` although nothing was written (`Worker.TextlessErrorReadsDone`); without any fault the
  journal is truthful if and only if there is none (`Worker.JournalIsTruthfulIff`); with faults,
  `Worker.JournalTellsTruthIff` says exactly when.
* One club's failure stops no other club only as long as no turn is cut off and each error can be
  written to the journal (`Worker.RunsToEndIff`).
* Confirming and rejecting check a booking when they read it and not when they write it. A decision
  that read a booking before the job cancelled it overwrites the cancellation that the journal lists
  (`Expiry.StaleDecisionBreaksAccount`); the table agrees with the account if and only if that does
  not happen (`Expiry.TableAgreesIff`).
* The same race lets a stale confirmation revive a booking that a clerk rejected
  (`BookingDesk.RejectedIsRevived`); a cancelled booking stays cancelled if and only if the last
  decision written to it since is not a confirmation (`BookingDesk.CancelledStaysIff`).
* Prolonging without a version writes hours worked out from an older row: two clerks make a booking
  of eighteen hours that says twelve (`BookingDesk.TwoExtensionsOverrun`). Hours match the period if
  and only if no prolongation is written over another that it had not read
  (`BookingDesk.HoursMatchIff`); the period keeps within the limit if and only if no prolongation is
  written over one that leaves no room for it (`BookingDesk.LimitHoldsIff`).
* The status does not protect a prolongation from a cancellation in between
  (`BookingDesk.CancelledIsProlonged`): it prolongs a confirmed booking if and only if the last
  decision about the status that was written since its read, if any, is a confirmation, and an open
  one if and only if no closing was (`BookingDesk.ProlongsConfirmedIff`). With a version it finds the
  row it read (`BookingDesk.VersionedExtensionIsSafe`).
* Idempotency keys are compared by their first 128 characters (`Idempotency.KeysTruncated`,
  `Idempotency.LongKeysCollide`); the console's UUID keys are shorter.
* When the active club changes during a drain pass, a queued command of the earlier club fails for
  good instead of waiting for its club: exactly those commands fail whose own send finds another
  club (`SyncEngine.ClubSwitchFailsForGood`, `SyncEngine.SwitchDuringPass`).
* A caller that waited for a refresh that failed on the network signs the user out if and only if it
  had been answered 401 (`ApiClient.NetworkFailureKeepsSession`, `ApiClient.NetworkFailureSignsOut`).
* A rate-limited key at its limit is usable again if and only if an EXPIRE has followed its
  counter's birth (`RateLimit.FadesIffTtlSet`); when its creator died before that, it is refused for
  ever (`RateLimit.StuckKeyRefusesForEver`).
* The figures of a closed shift stand still if and only if no uncommitted write, past its check at
  the closing, would change them (`ShiftLedger.FrozenIffQuiet`): a late entry moves the expected cash
  (`ShiftLedger.LateEntryMovesCash`), a second closing overwrites the count
  (`ShiftLedger.SecondClosingRecounts`).
* The worker's sender retries a template that cannot be rendered like any other failure, although
  its comment calls that pointless (`Notifications.UnrenderableIsRetried`).
* A row is tried more than three times if and only if more runs died on it, between a try and its
  UPDATE, than it had recorded tries left (`Notifications.TriesAreBounded`, `Notifications.FourTries`).
* The console's `classify` expects `IDEMPOTENCY_IN_PROGRESS` in practice when two tabs race; the server
  never gives that answer (`OfflineSystem.ImpossibleAnswers`).
* `hhmmToMinutes` accepts texts that are no time of day (`Format.TimesReprintIff`).

## Model

| member | source | states |
|---|---|---|
| `OfflineSystem.AtMostOnce` | api/src/playbron/core/idempotency.py:85-134 | In every reachable state of tabs, network and transactions, a (club, key, route) has at most one committed effect, exactly one if and only if its key row is committed, and that row is complete. |
| `OfflineSystem.SyncedMeansAppliedOnce` | apps/admin/src/offline/syncEngine.ts:70-76 | Whenever an item reads SYNCED or `runCommand` has returned `synced: true`, exactly one of all committed effects carries its key, and the handler behind that effect's route reads in its path and body the very command that was queued. |
| `OfflineSystem.NoQueuedCommandLost` | apps/admin/src/offline/syncEngine.ts:141-161 | Once `runCommand` has returned `synced: false`, the item stays in the outbox with id, club, user, command and creation time unchanged, or has been applied exactly once. |
| `OfflineSystem.OnlyPruneRemoves` | apps/admin/src/offline/db.ts:74-83 | An item leaves the outbox only by a prune, is older than its 7-day cutoff then, and has been applied exactly once. |
| `OfflineSystem.RepliesAgree` | api/src/playbron/core/idempotency.py:108-134 | Two successful answers for one slot carry the same status and body and answer the same path and body, whichever attempt ran the service. |
| `OfflineSystem.OtherRequestsNeverRun` | api/src/playbron/core/idempotency.py:115-122 | A request that differs in path or body from the one that holds the slot is never answered with success, and its effect is never the committed one. |
| `OfflineSystem.ImpossibleAnswers` | api/src/playbron/core/idempotency.py:123-134 | `IDEMPOTENCY_IN_PROGRESS` is unreachable when inserts block on the unique index, the row that made an insert fail is always found, and no console request is told its key was reused. |
| `OfflineSystem.CommittedStays` | api/src/playbron/core/idempotency.py:8-18 | Committed key rows, effects and answers, keys and acknowledgements only ever grow along a run. |
| `OfflineSystem.RunKeepsInv` | apps/admin/src/offline/syncEngine.ts:165-200 | Every reachable world of the joint protocol satisfies the invariant of both halves. |
| `OfflineServer.StepKeepsInv` | api/src/playbron/core/idempotency.py:67-155 | Every step of concurrent server transactions keeps rows, effects and answers paired one to one. |
| `OfflineServer.OneEffectPerRow` | api/migrations/versions/0040_idempotency_keys.py:59-74 | Effects and key rows correspond one to one, and a committed row is complete. |
| `OfflineServer.RowIsThere` | api/src/playbron/core/idempotency.py:108-134 | After a failed insert the lookup finds a completed row, and it is replayed exactly when path and body are the same. |
| `OfflineServer.AloneIsHandled` | api/src/playbron/core/idempotency.py:8-18 | A transaction that runs alone leaves the table, but for its rows' creators, answers and commits exactly as the handler of the key table. |
| `OfflineServer.StepOnlyAdds` | api/src/playbron/core/idempotency.py:137-155 | No step changes or removes a committed key row, effect or answer. |
| `OfflineClient.StepKeepsInv` | apps/admin/src/offline/syncEngine.ts:63-200 | Every step of tabs that crash, share the outbox and work from stale listings keeps its invariant: every item is the one that was queued, every request is its key's own, SYNCED only after a success. |
| `OfflineClient.StepGrows` | apps/admin/src/offline/outboxReducer.ts:24-99 | A step never takes back what was queued, sent or acknowledged, bears only fresh keys, and removes items only by a prune. |
| `OfflineClient.CrashLosesMemory` | apps/admin/src/offline/syncEngine.ts:165-200 | A crash loses the tab's drain and calls and nothing else; a pass or call that gives up leaves the outbox as it is. |
| `Idempotency.KeyTable.Begin` | api/src/playbron/core/idempotency.py:67-134 | The table and the answer of `begin` are those of the specification function: reserve, replay, reuse refused or still in progress. |
| `Idempotency.KeyTable.Finish` | api/src/playbron/core/idempotency.py:137-155 | Completes exactly the reserved row and nothing else. |
| `Idempotency.KeyTable.Handle` | api/src/playbron/core/idempotency.py:8-18 | A handler leaves the table as it was when its service raises, and otherwise completes its row with the service's answer. |
| `Idempotency.OneCall` | api/src/playbron/core/idempotency.py:67-155 | One call in full, in the columns of its row: without a key, or an empty one, the service just runs; the first call of a slot leaves its row with hash, caller and answer or nothing at all; later calls replay, are refused as reuse, or while the row is open. |
| `Idempotency.LaterCallsReplay` | api/src/playbron/core/idempotency.py:108-134 | After a committed call, any later call on its slot runs nothing: the same request gets the stored answer, a different one is refused as a reuse. |
| `Idempotency.CallsKeepRows` | api/src/playbron/core/idempotency.py:67-155 | Over any history of calls every stored row stays as it is and is complete. |
| `Idempotency.KeysTruncated` | api/src/playbron/core/idempotency.py:85-105 | Two keys share a row if and only if they are equal or agree on their first 128 characters. |
| `Idempotency.LongKeysCollide` | api/src/playbron/core/idempotency.py:85-105 | Concrete keys beyond 128 characters where one command is answered with another's reply. |
| `Commands.ReadsBack` | packages/api-client/src/endpoints.ts:751-784 | The handler that a command's route leads to reads that command back from path and body: its kind, its club, its target and every field, except for the total that only the client compares. |
| `Commands.WireInjective` | api/src/playbron/core/idempotency.py:56-64 | Two commands reach the server as the same route, path and body exactly when the server could not tell them apart. |
| `Commands.BodyAloneIsNotEnough` | api/src/playbron/core/idempotency.py:56-64 | Without the path in the hash, confirming two bookings would be one request. |
| `Commands.RoutesDiffer` | api/src/playbron/modules/bookings/router.py:664-928 | The nine route constants are pairwise different. |
| `Outbox.AttemptSettles` | apps/admin/src/offline/outboxReducer.ts:24-74 | For every error an attempt leaves the item either waiting (exactly for errors that are not final) or settled, one attempt on, and still the same command. |
| `Backoff.RetryRun` | apps/admin/src/offline/backoff.ts:11-27 | Over any run of network failures and any jitter, the first seven waits grow strictly, later ones stay within 48 to 72 seconds, none is below 800 ms. |
| `Backoff.DelayBand` | apps/admin/src/offline/backoff.ts:21-27 | Every delay is within a fifth of its step and the 500 ms floor never takes effect. |
| `Backoff.DelayInNumbers` | apps/admin/src/offline/backoff.ts:11-27 | The delay after the n-th failure is 1, 2, 4, 8, 16, 30 or 60 seconds, moved by the draw from four fifths to six fifths of it, to the nearest millisecond. |
| `Backoff.FailuresAreCounted` | apps/admin/src/offline/outboxReducer.ts:37-48 | After k network failures the counter reads k more and the item still waits. |
| `OutboxStore.Store.ListOutboxItems` | apps/admin/src/offline/db.ts:66-71 | Returns every item once, oldest first. |
| `OutboxStore.Store.PruneSyncedOlderThan` | apps/admin/src/offline/db.ts:74-83 | Removes exactly the SYNCED items created before the cutoff. |
| `OutboxStore.Store.PutOutboxItem` | apps/admin/src/offline/db.ts:59-64 | Writes one item under its id and no other. |
| `SyncEngine.Engine.RunCommand` | apps/admin/src/offline/syncEngine.ts:114-162 | Queues exactly when offline or when the failure is not final, returns synced exactly on success, throws final errors and then leaves the store alone; the queued item is the command, due after its delay. |
| `SyncEngine.Engine.AttemptOne` | apps/admin/src/offline/syncEngine.ts:63-95 | Leaves the item as its outcome settles it, and a conflict record with the server's reason exactly for a version conflict. |
| `SyncEngine.Engine.RecoverInterruptedItems` | apps/admin/src/offline/syncEngine.ts:173-180 | Puts every interrupted item back to waiting, and changes no other. |
| `SyncEngine.Engine.DrainQueue` | apps/admin/src/offline/syncEngine.ts:165-200 | A pass recovers, attempts the eligible items of one listing in order until connectivity is gone, records the conflicts of exactly these, and prunes; a second pass in the same tab does nothing. |
| `SyncEngine.AttemptLeaves` | apps/admin/src/offline/syncEngine.ts:63-95 | What an attempt leaves of an item in every column, for every outcome; a failure that is not final makes it due again after the delay of its count of failures, a final one leaves the due time alone. |
| `SyncEngine.PassesAreFailures` | apps/admin/src/offline/syncEngine.ts:75-82 | Passes that each attempt an item and fail on the way leave in the store what as many failures make of it. |
| `SyncEngine.DrainsBackOff` | apps/admin/src/offline/syncEngine.ts:75-82 | However often passes run, two attempts of an item that fails on the way are at least four fifths of 1, 2, 4, 8, 16, 30, then 60 seconds apart, by its count of failures. |
| `SyncEngine.ConflictsAreRecorded` | apps/admin/src/offline/syncEngine.ts:83-94 | A pass records, with the server's reason and the time, exactly the attempted items answered VERSION_CONFLICT, and leaves other records alone. |
| `DrainRefinement.PassIsARun` | apps/admin/src/offline/syncEngine.ts:165-200 | Any run of the joint protocol that ends with the tab idle can be continued by any uninterrupted pass over its outbox, in steps of that tab and the server only, to the tab idle again, the outbox the pass leaves, its requests sent and its successes acknowledged and applied exactly once. |
| `DrainRefinement.SendIs` | apps/admin/src/offline/syncEngine.ts:63-76 | There the i-th attempt's requests, none, one or two, go out in order, each under the item's own key. |
| `DrainRefinement.OtherSendsStay` | apps/admin/src/offline/syncEngine.ts:63-76 | No other request number is written. |
| `DrainRefinement.SendingKeepsRest` | apps/admin/src/offline/syncEngine.ts:70-76 | Only the successful items are acknowledged, and nothing else of the console changes. |
| `CommandRefinement.CommandIsARun` | apps/admin/src/offline/syncEngine.ts:114-162 | Any run of the joint protocol with the tab open can be continued by any `runCommand` under a fresh key, in steps of that call and the server only, to the outbox the class leaves, its requests sent, and a success recorded and applied exactly once. |
| `WorldRuns.CanAnswer` | api/src/playbron/core/idempotency.py:85-155 | From every reachable world a request of the console on the network can come to be answered with success, by running its service or by replaying its answer. |
| `Repeats.EverySendIsAllowed` | packages/api-client/src/client.ts:71-86 | Whenever the HTTP client sends on a request's own path, the protocol's executor is before its first send or may repeat after a 401. |
| `SyncEngine.PassAttemptsDueItems` | apps/admin/src/offline/syncEngine.ts:175-196 | A pass attempts only items that were SYNCING, or PENDING and due, for the active club, each at most once and in createdAt order. |
| `SyncEngine.OnlinePassIsComplete` | apps/admin/src/offline/syncEngine.ts:175-196 | While online it attempts exactly those items. |
| `SyncEngine.PassSettlesEveryItem` | apps/admin/src/offline/syncEngine.ts:165-200 | What a pass leaves of every item; none stays SYNCING; only acknowledged items past the retention are gone. |
| `SyncEngine.FinalItemsAreNotResent` | apps/admin/src/offline/outboxReducer.ts:77-79 | SYNCED, FAILED and CONFLICT items are never resent, and the latter two are left as they are. |
| `SyncEngine.ChangedBillIsConflict` | apps/admin/src/offline/commands.ts:48-65 | A queued bill whose total moved becomes a conflict; one whose total cannot be read is settled by that error; otherwise the answer of the close decides. |
| `SyncEngine.ClubSwitchFailsForGood` | apps/admin/src/offline/syncEngine.ts:181-196 | An item that a pass attempts and the server would accept ends FAILED if and only if the club active at its own send differs from the pass's; otherwise it is acknowledged. |
| `SyncEngine.SwitchDuringPass` | apps/admin/src/offline/syncEngine.ts:181-196 | A pass over two items in which the club is switched between their sends: the first is SYNCED, the second FAILED. |
| `ApiClient.SingleFlight` | packages/api-client/src/client.ts:66-212 | In every interleaving at most one refresh is outstanding, a request sends its own path at most twice, a repeat carries the session of the refresh it waited for, and a first send that waited carries that session or else its own. |
| `ApiClient.SendsAgainOnlyAfter401` | packages/api-client/src/client.ts:66-86 | A request is sent a second time only after its first send was answered 401 and a refresh brought a session, and never a third time. |
| `ApiClient.LateCallersJoin` | packages/api-client/src/client.ts:179-186 | A caller that needs a session while a refresh is under way waits for that one and starts none. |
| `ApiClient.OutcomeIsFinal` | packages/api-client/src/client.ts:188-212 | The outcome of a refresh never changes, so all its waiters see the same. |
| `ApiClient.StepsTellSessions` | packages/api-client/src/client.ts:66-212 | Over every run the stored session, whether a refresh is under way, and the session each send carries are told by the steps alone: a refresh that brings a session stores it, a request carries the session stored at its begin, or, when that was expiring, what the refresh brought. |
| `ApiClient.RunKeepsInv` | packages/api-client/src/client.ts:66-88 | Every reachable client state counts each request's sends by where it stands. |
| `ApiClient.NetworkFailureKeepsSession` | packages/api-client/src/client.ts:66-88 | In every run, a caller that waited for a refresh lost on the network leaves the session alone if and only if it had not been answered 401 or there is none left. |
| `ApiClient.NetworkFailureSignsOut` | packages/api-client/src/client.ts:196-206 | A run in which a 401, a refresh and a dead network sign the user out. |
| `Worker.Runner.RunPerClub` | api/src/playbron/worker/base.py:149-182 | Tables, journal and counters after the loop are those of the specification, for every pattern of exceptions, with or without a text, of cancellations and of journal failures. |
| `Worker.Runner.RunClub` | api/src/playbron/worker/base.py:159-181 | One club's turn: the verdict, the tables and the journal row for every fault. |
| `Worker.Runner.JournalFinish` | api/src/playbron/worker/base.py:118-146 | Closes that row only: as an error with one more attempt exactly when the error text is not empty, and as done otherwise. |
| `Worker.OneTurn` | api/src/playbron/worker/base.py:149-182 | One turn in full, for every result of the handler and every fault: what it counts as, the tables, and every column of its row, the error's text cut to 500 characters. |
| `Worker.FailuresAreIsolated` | api/src/playbron/worker/base.py:149-182 | A completed run leaves the tables equal to running only the clubs whose handlers committed. |
| `Worker.RunsToEndIff` | api/src/playbron/worker/base.py:177-181 | The loop reaches its end if and only if at every club nothing is cut off, and the handler commits and its row is completed, or the error can be journalled, or its row was never opened. |
| `Worker.JournalIsComplete` | api/src/playbron/worker/base.py:104-182 | With a journal that never fails: one closed row per club in order, `done` exactly when its writes committed or its exception had no text; done plus failed equals the clubs. |
| `Worker.JournalTellsTruthIff` | api/src/playbron/worker/base.py:164-181 | Exactly when a row says `done` if and only if the writes committed: by the fault at completing it, the text of the exception and whether the error could be recorded. |
| `Worker.JournalIsTruthfulIff` | api/src/playbron/worker/base.py:139-142 | Without faults every row of a run is truthful if and only if no handler raises without a text. |
| `Worker.TextlessErrorReadsDone` | api/src/playbron/worker/base.py:177-181 | A handler that raises without a text: nothing written, counted as failed, journalled as done with no attempt. |
| `Expiry.EveryAutoCancellationNamedOnce` | api/src/playbron/worker/tasks.py:62-77 | Over every interleaving of turns and staff decisions, a booking is cancelled by the job at most once, and finished rows plus turns whose row was lost name it exactly as often. |
| `Expiry.TableAgreesIff` | api/src/playbron/modules/bookings/service.py:1350-1393 | A booking reads as cancelled by the system exactly if it is named, if and only if no decision past its check was written over the cancellation. |
| `Expiry.StaleDecisionBreaksAccount` | api/src/playbron/modules/bookings/service.py:1353-1393 | A run in which a booking confirmed or rejected from a stale read is listed as cancelled by the system. |
| `Expiry.JournalAuditsIff` | api/src/playbron/worker/base.py:165-173 | The finished rows alone agree with the table exactly when a cancellation was overwritten if and only if its row was lost. |
| `Expiry.NothingLost` | api/src/playbron/worker/base.py:173 | No row is lost when completing the rows never fails. |
| `Expiry.RunIsItsTurns` | api/src/playbron/worker/tasks.py:79 | A run of the job is its turns, up to one that leaves the loop. |
| `BookingDesk.ExpiryKeepsOrder` | api/src/playbron/worker/tasks.py:62-75 | The expiry UPDATE keeps the table's guards and is never refused by them. |
| `BookingDesk.ExpiryInColumns` | api/src/playbron/worker/tasks.py:62-75 | The UPDATE changes exactly the club's pending rows without a prepayment created more than ten minutes before, and of these the status, the reason and the version. |
| `BookingDesk.MoveInColumns` | api/src/playbron/modules/bookings/service.py:1357-1625 | Every move in the columns of every row: a decision lands on its own row only, if its version, the checks and the station's instants allow it, with the hours it read. |
| `BookingDesk.CreationInColumns` | api/migrations/versions/0009_bookings.py:139-168 | A booking is made pending or confirmed, with its period as long as its hours, and comes in as version 1 unless it breaks a check or its station is taken. |
| `BookingDesk.RequestsCarryTheirRow` | api/src/playbron/modules/bookings/service.py:1350-1393 | A request carries the row as it read it, and leaves no trace when it is rolled back. |
| `BookingDesk.HoursMatchIff` | api/src/playbron/modules/bookings/service.py:1533-1617 | Over every history of overlapping decisions, a booking's hours match its period if and only if no prolongation was written over another one written since its read; the hours never exceed the period. |
| `BookingDesk.LimitHoldsIff` | api/src/playbron/modules/bookings/service.py:1550-1560 | A booking's period keeps within twelve hours if and only if no prolongation was written over a period that left no room for it. |
| `BookingDesk.ProlongsConfirmedIff` | api/src/playbron/modules/bookings/service.py:1526-1531 | An accepted prolongation leaves a confirmed booking if and only if the last decision about the status written since its read, if any, is a confirmation, and an open one if and only if no closing was. |
| `BookingDesk.CancelledStaysIff` | api/src/playbron/modules/bookings/service.py:1353-1393 | A cancelled booking stays cancelled if and only if the last decision written since, if any, is not a confirmation. |
| `BookingDesk.StatusIsLastDecision` | api/src/playbron/modules/bookings/service.py:1350-1393 | Once no longer pending, a booking's status is what the last decision written to it says, and it is closed once any closing is written. |
| `BookingDesk.RejectedIsRevived` | api/src/playbron/modules/bookings/service.py:1353-1363 | A stale confirmation makes a rejected booking confirmed. |
| `BookingDesk.VersionedExtensionIsSafe` | api/src/playbron/modules/bookings/service.py:1592-1610 | A prolongation with an earlier version that is accepted finds the very row it checked: confirmed, not closed in between, and with its hours. |
| `BookingDesk.TwoExtensionsOverrun` | api/src/playbron/modules/bookings/service.py:1611-1617 | Two prolongations of six hours make a booking of eighteen that says twelve. |
| `BookingDesk.CancelledIsProlonged` | api/src/playbron/modules/bookings/service.py:1526-1531 | A prolongation without a version prolongs a booking cancelled since its read. |
| `Expiry.SecondRunCancelsNothing` | api/src/playbron/worker/tasks.py:48-52 | A second run at the same instant over clubs whose turn committed changes nothing. |
| `Notifications.Desk.QueueNotification` | api/src/playbron/worker/notify.py:42-78 | Appends a pending row and returns its id, or returns none and changes nothing when the key exists. |
| `Notifications.Desk.SendPending` | api/src/playbron/worker/notify.py:81-147 | Tries the batch in order, records each outcome, and counts the deliveries, also when the run dies half-way. |
| `Notifications.BatchInNumbers` | api/src/playbron/worker/notify.py:92-101 | A batch holds fifty pending rows or all there are; a row in it has fewer than fifty strictly older ones, one left out at least fifty no younger. |
| `Notifications.RunInColumns` | api/src/playbron/worker/notify.py:104-146 | A recorded row is SENT if it was delivered, and otherwise one failure on, ERROR at three; every other row is as it was. |
| `Notifications.EveryRowIsSettled` | api/src/playbron/worker/notify.py:27-29 | With N rows pending at or ahead of it or coming in there later, a row is SENT or ERROR after floor(3N/50)+3 full runs, over every history: whatever younger rows arrive and however many runs die half-way. |
| `Notifications.EveryRowIsSettledByTries` | api/src/playbron/worker/notify.py:104-146 | With the same N it is settled once 3N+98 tries are recorded, also if every run is cut off. |
| `Notifications.TriesAreBounded` | api/src/playbron/worker/notify.py:104-143 | At most three recorded tries, exactly three failures for ERROR; all tries are these plus the runs that died on the row, so more than three exactly when these exceed the recorded tries it had left. |
| `Notifications.FourTries` | api/src/playbron/worker/notify.py:104-143 | A history in which a row is tried four times. |
| `Notifications.UnrenderableIsRetried` | api/src/playbron/worker/notify.py:118-143 | A row whose template cannot be rendered waits for another try exactly like one that Telegram did not answer. |
| `Notifications.QueuedOnce` | api/migrations/versions/0035_jobs_notifications.py:123-128 | However often a notice is asked for, the table keeps one row for its key, for ever. |
| `Notifications.BatchExists` | api/src/playbron/worker/notify.py:92-101 | Every table has a batch that the SELECT may return. |
| `NotifyTicks.BookingReminders` | api/src/playbron/worker/tasks.py:89-131 | The rows queued are those of the specification, and the count is the number of new rows. |
| `NotifyTicks.DailySummary` | api/src/playbron/worker/tasks.py:143-230 | Queues one summary per owner chat in the ninth local hour and nothing otherwise. |
| `NotifyTicks.RunIsSending` | api/src/playbron/worker/notify.py:104-146 | A run of the sender, also one cut off, keeps every row's key, as a Sending tick does. |
| `NotifyTicks.QueuedIffAsked` | api/src/playbron/worker/notify.py:58-78 | After any history of ticks and sending, a notice is in the queue if and only if some tick asked for it, and then once. |
| `NotifyTicks.EarlyNeverAfterSoon` | api/src/playbron/worker/schedule.py:16-28 | Over any monotone ticks the two-hour reminder is never queued after the twenty-minute one of the same booking and chat. |
| `NotifyTicks.OneSummaryPerLocalDay` | api/src/playbron/worker/tasks.py:136-146 | Per club, owner chat and local day: one summary if a tick fell into the ninth hour, none otherwise. |
| `NotifyTicks.StageFitsClock` | api/src/playbron/worker/schedule.py:16-28 | A tick asks for the late stage exactly in the last twenty minutes before the start. |
| `NotifyTicks.ReminderAskedIff` | api/src/playbron/worker/tasks.py:93-115 | A tick asks for a reminder if and only if a confirmed booking with that chat is in its stage: 120 to 20 minutes before the start, or the last 20. |
| `Schedule.OneKeyPerLocalDay` | api/src/playbron/worker/schedule.py:36-51 | Two summaries share a dedup key exactly when they are made on the same local day. |
| `Schedule.KeysOrderLikeDates` | api/src/playbron/worker/schedule.py:49-51 | `date_key` preserves the order of valid dates, hence is injective. |
| `Schedule.DaysInverse` | api/src/playbron/worker/schedule.py:46 | Yesterday and tomorrow undo each other across months and leap years, with no date between. |
| `Schedule.DaysAreNumbered` | api/src/playbron/worker/schedule.py:46 | Tomorrow has the next number and yesterday the one before in the closed form of the Gregorian calendar, from 1 January 1 to 31 December 9999. |
| `Schedule.KeyInDigits` | api/src/playbron/worker/schedule.py:49-51 | A key reads as year, month and day. |
| `Schedule.DailyRevenueAddsUp` | api/src/playbron/worker/schedule.py:54-59 | Over consecutive local days with midnights in order, the daily signed sums add up to the sum of the whole range. |
| `Schedule.ReceivedInFigures` | api/src/playbron/worker/tasks.py:148-162 | What a club received is the payments it took in the range less the refunds it gave. |
| `Schedule.RangesJoin` | api/src/playbron/worker/tasks.py:148-162 | Received sums of adjacent half-open ranges add up, refunds included. |
| `ReminderClaims.EachBookingReturnedOnce` | api/migrations/versions/0038_booking_reminders.py:115-160 | Under any interleaving of claims, locks, commits and rollbacks a booking is returned by at most one committed call, once. |
| `ReminderClaims.AtMostOneMessage` | api/src/playbron/modules/bookings/reminders.py:40-86 | At most one message is sent for a booking, whatever crashes. |
| `ReminderClaims.ReturnedBookingsAreDue` | api/migrations/versions/0038_booking_reminders.py:119-127 | In the columns: every returned booking is CONFIRMED, unmarked, has a customer who can be written to, and starts after the call's time and within the lead, when taken and until the commit. |
| `ReminderClaims.OnlyAskedForReturned` | api/migrations/versions/0038_booking_reminders.py:119-127 | A booking that at no commit was in that state is returned by no committed call. |
| `ReminderClaims.MarkedIffClaimedOnce` | api/migrations/versions/0038_booking_reminders.py:128-134 | A booking carries the mark if and only if exactly one committed call took it, and the mark is that call's time. |
| `ReminderClaims.StepKeepsInv` | api/migrations/versions/0038_booking_reminders.py:115-160 | Every step keeps taken rows locked and unchanged, and marks paired with committed calls. |
| `ReminderClaims.EveryWindowIsServed` | api/src/playbron/modules/bookings/reminders.py:33-37 | When ticks are no further apart than the lead window, one falls inside the window of a confirmed booking, and each that does leaves the booking marked unless another had it locked at some moment of that tick. |
| `ReminderClaims.TickClaims` | api/migrations/versions/0038_booking_reminders.py:119-134 | A booking that stays as it is while a tick runs is marked by it, with its time, exactly if it asks for the reminder in its columns, unless another had it locked in between. |
| `ReminderClaims.ClaimAlone` | api/migrations/versions/0038_booking_reminders.py:115-160 | A call with nobody else moving, in full: it marks exactly the bookings that ask for the reminder and that nobody has locked, and returns those whose customer can be written to, each once. |
| `ReminderClaims.SendIsAMessage` | api/src/playbron/modules/bookings/reminders.py:66-83 | Each step of sending is one message more, to the next booking that the call returned. |
| `ReminderClaims.WritersAndClaims` | api/migrations/versions/0038_booking_reminders.py:119-134 | A claim rolled back and a lock released leave no trace, and a writer's lock keeps claims away until then. |
| `Bookings.BookingTable.InsertRow` | api/migrations/versions/0009_bookings.py:139-168 | Accepts a row exactly when its checks hold and no active booking of the station meets it; a refusal changes nothing. |
| `Bookings.BookingTable.UpdateRow` | api/migrations/versions/0041_booking_version_command_id.py:58-73 | An accepted update bumps the version; a refused one changes nothing. |
| `Bookings.BookingTable.CheckDecision` | api/src/playbron/modules/bookings/service.py:1353-1555 | The checks of confirming, rejecting, cancelling and prolonging, in the code's order, on the row as read. |
| `Bookings.BookingTable.WriteDecision` | api/src/playbron/modules/bookings/service.py:1357-1625 | Writes a decision over the current row: only a given version is checked again. |
| `Bookings.StationNeverOverbooked` | api/migrations/versions/0009_bookings.py:159-168 | After any history of statements the active time of a station inside any interval is at most its length. |
| `Bookings.HistoryKeepsOrder` | api/migrations/versions/0009_bookings.py:159-168 | Active bookings of a station stay pairwise disjoint over every history. |
| `Bookings.RefusedOnlyIfTaken` | api/migrations/versions/0009_bookings.py:139-168 | An insert is accepted if and only if the row meets the column checks and no instant of a station is then covered by two active bookings, back-to-back ones included; it is then version 1. |
| `Bookings.UpdateRefusedOnlyIfTaken` | api/migrations/versions/0009_bookings.py:139-168 | The same of an update, with the row replaced and its version one up. |
| `Bookings.DisjointIffOneAtATime` | api/migrations/versions/0009_bookings.py:159-168 | The exclusion holds exactly when no instant of a station is covered twice. |
| `Bookings.UndisturbedDecision` | api/src/playbron/modules/bookings/service.py:1353-1625 | A decision with nothing between its check and its write succeeds exactly in the states it asks for, tells which rule it broke otherwise, and changes exactly its columns; a prolongation can still meet an old version or a taken station. |
| `Bookings.VersionsGrow` | api/migrations/versions/0041_booking_version_command_id.py:58-73 | Versions never go back, and equal versions mean equal rows. |
| `Bookings.AcceptedVersionMeansUntouched` | api/migrations/versions/0041_booking_version_command_id.py:58-73 | A prolongation accepted at an earlier version proves the row unchanged ever since it was read. |
| `ShiftLedger.Ledger.InsertEntry` | api/migrations/versions/0034_closed_shift_guard.py:58-105 | Refuses entries of missing, foreign and closed shifts, appends others, and leaves the expected cash of every closed shift alone. |
| `ShiftLedger.Ledger.UpdateExpense` | api/src/playbron/modules/finance/service.py:152-210 | Changes an expense unless its shift is closed; closed shifts keep their figures. |
| `ShiftLedger.Ledger.CloseShift` | api/src/playbron/modules/finance/shifts.py:313-336 | Closes an open shift with the variance of the moment and leaves other closed shifts alone. |
| `ShiftLedger.Ledger.OpenShift` | api/src/playbron/modules/finance/shifts.py:224-251 | One open shift per club and clerk; closed shifts keep their figures. |
| `ShiftLedger.DrawerInFigures` | api/src/playbron/modules/finance/shifts.py:75-130 | Expected cash, account by account: the opening cash, cash payments less cash refunds, cash put in less taken out, less active cash expenses of that shift. |
| `ShiftLedger.RequestAlone` | api/migrations/versions/0034_closed_shift_guard.py:58-105 | A request that nothing comes between its check and its commit writes what it asked for; rolled back, it leaves no trace. |
| `ShiftLedger.FrozenIffQuiet` | api/migrations/versions/0034_closed_shift_guard.py:72-81 | A closed shift's expected cash and variance stand still in every further run, overlapping or not, if and only if no write in flight would change them. |
| `ShiftLedger.LateEntryMovesCash` | api/migrations/versions/0034_closed_shift_guard.py:72-81 | A run in which an entry checked before the closing lands after it and moves the expected cash by its share. |
| `ShiftLedger.SecondClosingRecounts` | api/src/playbron/modules/finance/shifts.py:325-336 | A run of two overlapping closings in which the later one overwrites the counted cash. |
| `ShiftLedger.SerialRequestsFreeze` | api/migrations/versions/0034_closed_shift_guard.py:3-7 | With nothing in flight, the variance of a closed shift is the same ever after. |
| `ShiftLedger.UncheckedUpdateMovesCash` | api/migrations/versions/0020_expenses.py:104 | An UPDATE of an expense past the service moves the expected cash unless its own share stays the same. |
| `RateLimit.AtMostTwiceTheLimit` | api/src/playbron/core/ratelimit.py:39-56 | In every interleaving of callers at most `limit` requests are allowed in one life of a counter and at most twice that in any interval of the window's length. |
| `RateLimit.HitIsItsEvents` | api/src/playbron/core/ratelimit.py:45-56 | One call of `hit` is the counter events of the interleaving theorem, with the same counter and decision. |
| `RateLimit.FadesIffTtlSet` | api/src/playbron/core/ratelimit.py:42-50 | After any history, a key at its limit is allowed again at a later time if and only if an EXPIRE has followed its counter's last birth, and then exactly from its end on. |
| `RateLimit.StuckKeyRefusesForEver` | api/src/playbron/core/ratelimit.py:48-50 | A history of hits without an EXPIRE counts up in one life for ever, and from the limit on no hit is allowed at any time. |
| `RateLimit.DelaysClimb` | api/src/playbron/core/ratelimit.py:59-73 | Consecutive failures in one window are delayed 0, 1, 4 and then 16 seconds, when the key had no living counter. |
| `RateLimit.LadderStartsOverIff` | api/src/playbron/core/ratelimit.py:59-78 | Failures are counted from one again if and only if the key had no living counter at the first of them; after clearing it they always are, and no other key changes. |
| `RateLimit.Redis.ClearFailures` | api/src/playbron/core/ratelimit.py:76-78 | Removes exactly this failure key. |
| `RateLimit.CountersApart` | api/src/playbron/core/ratelimit.py:39-78 | Requests are counted together exactly when they agree in scope and key, failures likewise; scopes have no colon. |
| `RateLimit.Redis.Hit` | api/src/playbron/core/ratelimit.py:39-56 | Counts exactly this key, sets its time to live only on the first hit, and decides by the count. |
| `RateLimit.Redis.FailureDelay` | api/src/playbron/core/ratelimit.py:59-73 | Counts exactly this failure key and returns its delay, also for a caller that dies before EXPIRE. |
| `Format.FormatSum` | packages/ui/src/format.ts:11-20 | The loop writes groups of three digits from the right. |
| `Format.SumsReadBack` | packages/ui/src/format.ts:11-20 | A printed sum reads back as itself, for every integer. |
| `Format.GroupsOfThree` | packages/ui/src/format.ts:10-17 | Spaces stand exactly at every fourth place from the right. |
| `Format.MinutesReadBack` | packages/ui/src/format.ts:52-63 | Minutes printed and read give the minute of the day, the number itself exactly for 0 to 1439. |
| `Format.TimesReprintIff` | packages/ui/src/format.ts:52-63 | A time read and printed is the same text exactly when hours are below 24 and minutes below 60. |

## Left out

- Fetch, IndexedDB, Redis, SQL drivers, Telegram and the clocks are foreign: their answers, failures and times are parameters or nondeterministic steps. JavaScript numbers are integers and reals here.
- SHA-256 over canonical JSON is taken as injective, so the hash column holds the hashed pair; fresh UUID keys of 36 characters never repeat.
- Handlers are taken to run begin, service and finish in one transaction, and an answer is sent only after the commit; row ids are identified with the unique slot.
- Transactions run at READ COMMITTED: a statement sees what was committed before it, an insert waits for an uncommitted row of its key, and an UPDATE waits for a locked row and then writes its latest version.
- A commit that takes effect but is reported as failed is not modelled: a fault at a statement means that it did nothing.
- DailySummary: does not model the figures of the payload, only who gets a summary of which day; the revenue in it is `Schedule.Received`.
- Closing a bill is in `BookingDesk` what it does to the booking's row; its payments, proof and settlement are not part of this model.
- FAILED or CONFLICT does not mean that a command was not applied: a retry after a lost answer can end in a 401 or 403, and nothing of the kind is claimed.
- The ranges that the request schemas check, such as amounts above zero, are not read in `Commands.ReadRequest`: a request they refuse commits nothing.
- Global first-in-first-out order of queued commands is not claimed: items that still back off are skipped.
- The conflicts store, the user interface's bus, connectivity detection and the retry timer of the sync engine are not in the joint protocol.
- Rows with the same createdAt or created_at come in any order; the model allows each.
- The order in which `UPDATE … RETURNING` and unordered SELECTs yield rows is fixed to table order in `Expiry` and `NotifyTicks`; no theorem depends on it.
- Overlapping runs of the sender are not modelled: its bound is about runs that follow one another. A message whose answer was lost may still have been delivered, so a customer can get it twice.
- The worker's list of active clubs, row-level security, grants, claims of session settings and the migrations' self-tests are database plumbing.
- In `ReminderClaims` a call visits its rows in any order, and judges each as its statement's snapshot has it and, before locking it, as it is then; names, rooms and the text of the message are left out.
- In `Schedule` a zone is any map from dates to the instants of their midnights; time-zone data and the occupancy figure of the summary are left out.
- Payments, movements and expenses are one sequence in `ShiftLedger`, which keeps the columns that the expected cash reads; who may see which shift is left out.
- The server's own services behind the nine commands, pricing, bills, slot search, staff roles and club publishing are not part of this model.
- Update of the tables inside `Expiry`, `BookingDesk` and the state machines is modelled on values: aliasing and partial writes of one statement are not captured.
