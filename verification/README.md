# Payment intents: a Dafny model

This project models a payment-intent platform and proves what it promises across its services:

- **core-api** (Go): the intent's status machine, the use cases that create, resolve and patch an intent, the
  PostgreSQL schema with its CHECKs, unique keys and triggers, the Kafka publisher behind a circuit breaker, the
  consumer of risk verdicts and the Redis idempotency lock;
- **risk-service** (Python): the ordered rules, the score, the in-memory velocity window and the worker that consumes
  requests and publishes verdicts;
- **reconciliation-scheduler** and **reconciliation-worker** (Python): the tick, the filter of stale and repeated
  ticks, the listing-and-expiring cycle, and the HTTP client with its retries, backoff and breaker.

`dafny verify dfyconfig.toml` checks all of it.

## How it is built

`Domain`, `Schema`, `History` and `RiskRules` define entities, tables, triggers and rules as values. `UseCases` cuts each
use case of core-api into its single database accesses. `Protocol` interleaves any number of such calls with dying
processes, commits whose reply is lost, Kafka writes that may land or not, risk workers that answer any request any number
of times and a consumer that applies any verdict again; its invariant is proved step by step, and `Runs` states the
theorems over every run from the empty database, `Witness` walks through single runs, and `Undisturbed` says in full what
Create does when nobody interferes.

The other modules are the programs in their own shape: classes with the fields the originals update, whose methods are
proved against specification functions. `Store` is the repositories and the unit of work; `Service` is
`PaymentIntentService`, each method of which is shown to take exactly the steps that `UseCases` gives it; `Breakers`,
`Publisher`, `Locks`, `ResultConsumer`, `Velocity`, `RiskService`, `CoreClient`, `Reconcile` and `Ticks` follow their source
files. Interference is explicit: between two statements of a use case `PaymentStore.Others` runs any number of arbitrary
transactions, so that what is proved of a method holds whatever everybody else does meanwhile.

Clocks, generated identifiers, the merchant table, message contents and network failures are unconstrained inputs. Instants
are whole microseconds. Deadlines, windows and breaker timeouts are integers in the same unit.

## Where the code and its comments disagree

The model follows the code.

- `migrations/0004_triggers.up.sql` says that no status change goes without its history row. The deferred check asks only
  for *some* row with the new status. `SilentChangeCommitsIff` gives the exact condition and `DishonestRowHidesAChange` a
  run; `EveryChangeCarriesItsRow` shows that the promise does hold for every writer whose history rows are truthful, and
  `UseCasesAreHonest` that the use cases are such writers.
- A history row's previous status is what the writer read, not what the row before it says: `PreviousMatchesIffReadIsFresh`.
- Two racing expirers both commit, since the trigger accepts an unchanged status, and the second row names a status that
  is not the one before it: `RacingExpirersBothCommit`.
- Both breakers speak of letting one probe through. Nothing limits it to one: `ProbesAreUnlimited`.
- `velocity.py` and `evaluate.py` say that an intent never counts itself. On redelivery it does: `SelfCountedIff`; and the
  verdict can flip, although `kafka_consumer.py` calls a second answer the same one: `RedeliveryCanFlip`. `OneAnswerIff`
  says exactly when all answers are the same: core-api's count travels in the event, or the merchant is blocked, or the
  reference is suspicious, or the velocity limit is negative.
- The reconciliation worker reads one page only: `PageIsCompleteIff` says when that misses nothing, and
  `ShortPagesSuffice` how the worker could tell.
- The client's docstring says core-api does not expose the status PATCH; core-api does. The model keeps a flag for both.
- APPROVED does not mean that risk said APPROVE: an intent sent to REVIEW can be approved by hand. `ReviewEndsApproved` is
  such a run, `ResolvingPatchCommitsIff` the exact condition of that PATCH, and `RiskFieldsAreTheVerdict` shows that
  without such PATCHes it cannot happen.
- `consumer.go` reconnects so as not to leave results unapplied. But reading commits the offset first, and an error of the
  use case is only logged. `ResultConsumer.StoredIff` says exactly when a committed verdict reaches the tables,
  `LostReplyLosesAVerdict` shows one lost with its connection or its process, and `OutageLosesVerdicts` any number lost to
  a database outage on connections that never fail.
- Every write-back carries the risk columns its use case read. `StaleWriteErasesIff` says when a PATCH thereby erases a
  stored decision, and `Witness.ExpiryErasesReview` is a run in which one does.
- The tick filter is said to drop a repeated tick. It compares with the last window only: `WindowRepeatsIff` says exactly
  when a window starts two cycles.
- A 401 tells the worker's breaker nothing at all, neither failure nor success. The bounds on outages are for stretches
  without one.

## Model

| member | source | states |
|---|---|---|
| Domain.ReachesTransitive | core-api/internal/domain/payment_intent.go:41-53 | reachability over the transition table composes |
| Domain.TransitionsAreAcyclic | core-api/internal/domain/payment_intent.go:41-53 | a status that can be left can never be reached again |
| Domain.TerminalIsForever | core-api/internal/domain/payment_intent.go:41-44 | APPROVED, REJECTED, CANCELLED and EXPIRED have no way out |
| Domain.AfterReview | core-api/internal/domain/payment_intent.go:36-44 | from UNDER_REVIEW on, PENDING and CANCELLED are ruled out for good |
| Domain.NewPaymentIntent | core-api/internal/domain/payment_intent.go:90-135 | accepts exactly the valid requests; a new intent repeats the request, is PENDING with no risk data, keeps the correlation id sent and expires thirty minutes after its creation |
| Domain.FirstFaultIsReported | core-api/internal/domain/payment_intent.go:98-115 | of several faults in a request the first in the fixed order is reported |
| Domain.PaymentIntent.ChangeStatus | core-api/internal/domain/payment_intent.go:139-146 | succeeds exactly on table transitions; a refusal leaves the object untouched |
| Domain.PaymentIntent.ApplyRiskDecision | core-api/internal/domain/payment_intent.go:150-175 | stores the whole verdict and moves the status with it, or changes nothing |
| Domain.DecisionIsIdempotent | core-api/internal/domain/payment_intent.go:150-175 | applying a verdict takes at most one legal transition, and applying it again changes nothing |
| Domain.ContradictionIsRefused | core-api/internal/domain/payment_intent.go:150-175 | once approved or rejected, any other known decision is an invalid transition |
| Schema.TablesAgree | migrations/0003_transiciones.up.sql:19-25 | the rows the trigger reads are the same relation as the map in the domain |
| Schema.TransactionKeeps | migrations/0002_esquema_base.up.sql:25-67 | any transaction of any statements, committed or aborted, keeps every CHECK and unique key, never rewrites history or an identity column, and moves statuses only along the table |
| Schema.TakenIff | migrations/0002_esquema_base.up.sql:25-67 | exactly which rows the table takes, column by column and against the rows it holds |
| Schema.PlainHexIsUuid | migrations/0002_esquema_base.up.sql:26-27 | thirty-two hexadecimal digits are a UUID |
| Schema.GroupedHexIsUuid | migrations/0002_esquema_base.up.sql:26-27 | so are groups of 8, 4, 4, 4 and 12 with hyphens between |
| Schema.ChangeNeedsItsRowWithin | migrations/0004_triggers.up.sql:60-77 | in a committed honest transaction every real change is followed by a history row of its own |
| Schema.EveryChangeCarriesItsRow | migrations/0004_triggers.up.sql:41-77 | over any run of honest transactions, each one that creates an intent or really changes a status inserts its own history row for it |
| Schema.SilentChangeCommitsIff | migrations/0004_triggers.up.sql:60-77 | a lone UPDATE of the status commits exactly when it is legal and an earlier row already names the new status |
| Schema.LoneInsertCommitsIff | migrations/0004_triggers.up.sql:74-77 | an INSERT without a history row of its own commits exactly when it is legal and a row of that status is there already |
| Schema.DishonestRowHidesAChange | migrations/0004_triggers.up.sql:60-77 | a concrete run in which an untruthful history row lets a later change commit unrecorded |
| History.RealChangesAtMostRank | core-api/internal/domain/payment_intent.go:41-44 | a history that walks the graph holds at most two real changes |
| History.WalkExtends | core-api/internal/infrastructure/postgres/payment_intent_status_history_repository.go:22-32 | appending a row keeps a walk a walk if it stays or moves legally and claims a status really held |
| RiskRules.ScoreTellsDecision | risk-service/app/domain/rules.py:52-88 | scores stay in [0, 100] and, for real amounts, each decision owns a range of its own: 5 to 25, 60 to 80, 100 |
| RiskRules.DecisionTable | risk-service/app/domain/rules.py:52-88 | the decision and reason of every event, in terms of its own text and numbers and in the rules' order |
| RiskRules.BlockedIff | risk-service/app/domain/rules.py:41-49 | a merchant is blocked exactly when its status reads INACTIVE, in any case and with white space around |
| RiskRules.SuspiciousIff | risk-service/app/domain/rules.py:34-38 | a reference is suspicious exactly when it is blank or, trimmed, begins like a prefix in any case |
| RiskRules.MerchantStatuses | risk-service/app/domain/rules.py:41-49 | INACTIVE blocks; ACTIVE, the empty status and an unknown one do not |
| RiskRules.ScoreAddsUp | risk-service/app/domain/scoring.py:43-52 | 5 or 60 points plus the amount's own, or 100 for a rejection |
| RiskRules.AmountPointsReach | risk-service/app/domain/scoring.py:35-40 | the amount's points are its share of the threshold in twentieths, rounded down, at most twenty |
| RiskRules.AmountPointsAtFullThreshold | risk-service/app/domain/scoring.py:35-40 | above the review threshold the gradual component is at its ceiling |
| UseCases.UpdateEffect | core-api/internal/infrastructure/postgres/payment_intent_repository.go:74-92 | an UPDATE with its history row commits exactly when the stored status allows it and the CHECKs hold; it changes only status, risk and update time of one row and appends one history row |
| UseCases.InsertEffect | core-api/internal/infrastructure/postgres/payment_intent_repository.go:28-51 | an INSERT commits exactly when the column types (UUIDs and enums), CHECKs and unique keys allow it; a duplicate is a conflict |
| UseCases.VerdictIsStoredIff | core-api/internal/application/payment_intent_service.go:214-235 | a verdict on an intent under review is stored exactly when its score is in [0, 100] and its decision known; row, status and history row are then given |
| UseCases.EveryVerdictIsStored | migrations/0002_esquema_base.up.sql:54 | whatever the rules answer about an intent under review can be stored, rejections with score 100 too |
| UseCases.RecentCountsTheNew | core-api/internal/infrastructure/postgres/payment_intent_repository.go:128-136 | a new intent raises its merchant's count by one if created since the given instant, and no other count |
| UseCases.NoneRecent | core-api/internal/infrastructure/postgres/payment_intent_repository.go:128-136 | an empty table counts none |
| UseCases.RecentIgnoresUpdates | core-api/internal/infrastructure/postgres/payment_intent_repository.go:128-136 | no UPDATE changes a count |
| UseCases.UseCasesAreHonest | core-api/internal/application/payment_intent_service.go:115-121 | the history rows the use cases insert carry the status their intent has at that moment |
| Protocol.StepKeeps | core-api/internal/application/payment_intent_service.go:67-271 | every step of every actor keeps the global invariant and only moves the tables forward |
| Protocol.WriteKeepsStore | core-api/internal/application/payment_intent_service.go:214-230 | writing back a row read earlier keeps constraints, histories and verdicts, however stale the read |
| Protocol.PublishKeeps | core-api/internal/application/payment_intent_service.go:147-157 | publishing adds the one event of an intent nobody published before |
| Runs.RiskFieldsAreTheVerdict | core-api/internal/application/payment_intent_service.go:136-236 | in every run a row's risk columns are empty or are the rules' verdict on the one event its Create published; with only the worker patching, APPROVED and REJECTED hold exactly when that verdict is stored and says so |
| Runs.NoSilentResolution | migrations/0002_esquema_base.up.sql:61-66 | even with arbitrary PATCHes, a resolved row holds its event's verdict and is not resolved against it |
| Runs.ResolvingPatchCommitsIff | core-api/internal/application/payment_intent_service.go:244-271 | a PATCH that resolves an intent under review commits exactly when some decision is stored, and leaves that decision as it was |
| Runs.PatchReads | core-api/internal/application/payment_intent_service.go:244-257 | the answer of a PATCH's read for every row and every wish, over the transitions spelled out |
| Runs.QuietPatchCommits | core-api/internal/application/payment_intent_service.go:259-270 | an undisturbed PATCH moves just that row and adds just its history row; only a resolution without a decision is refused |
| Runs.HistoryIsAWalk | core-api/internal/application/payment_intent_service.go:174-270 | every intent's history walks the graph from PENDING to its current status, claims only statuses held earlier, and really changes at most twice |
| Runs.IdempotencyHolds | core-api/internal/application/payment_intent_service.go:79-134 | whatever the lock did, at most one row per idempotency key, and all successful Creates with it return that row's id |
| Runs.PublishedOnceAfterReview | core-api/internal/application/payment_intent_service.go:136-157 | at most one Publish per intent, after its UNDER_REVIEW commit; from then on never PENDING nor CANCELLED |
| Runs.Forward | migrations/0004_triggers.up.sql:10-50 | between any two moments of a run nothing is deleted, no identity column or event changes and statuses only advance |
| Runs.ExpiredAnswersAreFinal | core-api/internal/application/payment_intent_service.go:244-271 | an expiry answered with success or conflict means EXPIRED in every later state |
| Runs.RefusedStaysRefused | core-api/internal/application/payment_intent_service.go:244-271 | an expiry refused by the domain check or at commit means another terminal status, and every later attempt is an invalid transition |
| Runs.PreviousMatchesIffReadIsFresh | core-api/internal/application/payment_intent_service.go:254-265 | the claimed previous status is the one just before exactly when the read was still current |
| Runs.RacingExpirersBothCommit | migrations/0004_triggers.up.sql:12-14 | two expirers that read the same open row both commit; the history gains two EXPIRED rows and the second does not name the status of the one before it |
| Witness.ReviewEndsApproved | core-api/internal/application/payment_intent_service.go:244-271 | a run from the empty database, action by action, in which an intent with the decision REVIEW ends APPROVED |
| Runs.StaleExpiryCommits | migrations/0004_triggers.up.sql:12-14 | an expiry read while the intent was open commits if it still is or is EXPIRED by now, and its row names the status that was read |
| Runs.StaleWriteErasesIff | core-api/internal/infrastructure/postgres/payment_intent_repository.go:74-92 | a committed PATCH erases a stored decision exactly when it read the row before there was one |
| Witness.ExpiryErasesReview | core-api/internal/application/payment_intent_service.go:244-271 | a run in which an expiry read before a REVIEW was stored commits after it and empties the risk columns |
| Store.PaymentStore.CreateIntent | core-api/internal/infrastructure/postgres/payment_intent_repository.go:28-51 | the INSERT, its constraint errors and its queued check, as the schema defines them |
| Store.PaymentStore.UpdateIntent | core-api/internal/infrastructure/postgres/payment_intent_repository.go:74-92 | overwrites the mutable columns under the trigger, or reports the missing row or the violated rule and changes nothing |
| Store.PaymentStore.CreateHistory | core-api/internal/infrastructure/postgres/payment_intent_status_history_repository.go:22-32 | appends one row of a known intent |
| Store.PaymentStore.CommitTx | migrations/0004_triggers.up.sql:74-77 | COMMIT succeeds exactly when every queued check finds its history row |
| Store.PaymentStore.ExecuteUpdate | core-api/internal/infrastructure/postgres/unit_of_work.go:24-36 | row and history are both stored, or the state is as before and the error is the schema's |
| Store.PaymentStore.ExecuteInsert | core-api/internal/infrastructure/postgres/unit_of_work.go:24-36 | intent and first history row are both stored, or neither |
| Store.PaymentStore.GetByIdempotencyKey | core-api/internal/infrastructure/postgres/payment_intent_repository.go:57-72 | the row with the key, or nothing when no row has it |
| Service.PaymentIntentService.Create | core-api/internal/application/payment_intent_service.go:67-170 | with anyone running in between, Create takes exactly a path of the protocol's machine and returns its answer; the topic grows by exactly what that path published, the generated id is new to the table, the merchant's status is the table's, and the lock is won and released, or lost, as the path says |
| Service.PaymentIntentService.Persist | core-api/internal/application/payment_intent_service.go:115-134 | a uniqueness conflict turns into the intent that holds the key |
| Service.PaymentIntentService.StoreIntent | core-api/internal/application/payment_intent_service.go:115-134 | the transaction goes through, or is a conflict to resolve, or ends the call |
| Service.PaymentIntentService.Submit | core-api/internal/application/payment_intent_service.go:174-187 | if anything was published, the intent's UNDER_REVIEW row is in the history; what was published is what the path says |
| Service.PaymentIntentService.MarkUnderReview | core-api/internal/application/payment_intent_service.go:174-187 | on success the UNDER_REVIEW row is committed and Publish is the next step; otherwise the call is over |
| Service.PublishFollowsReview | core-api/internal/application/payment_intent_service.go:136-157 | on any path of Create there is at most one Publish, right after the commit that put the UNDER_REVIEW row into the history, and it is all the path writes to the topic |
| Service.PublishedEventDescribes | core-api/internal/application/payment_intent_service.go:102-157 | what reaches the topic repeats the request, has the merchant's status, and counts the merchant's intents of the sixty seconds before the count |
| Undisturbed.NewCreate | core-api/internal/application/payment_intent_service.go:67-170 | a new request that nobody disturbs: the row under review, its two history rows and the answer, in full |
| Undisturbed.NewCreateOverHttp | core-api/internal/application/payment_intent_service.go:158-166 | with Kafka away, the verdict on that event is in the row, the history and the answer |
| Undisturbed.RepeatedCreate | core-api/internal/application/payment_intent_service.go:79-83 | a repeated request changes nothing and gets the stored intent |
| Service.StagesRise | core-api/internal/application/payment_intent_service.go:67-170 | no step of Create is ever taken twice |
| Service.PaymentIntentService.PublishAndResolve | core-api/internal/application/payment_intent_service.go:147-169 | publishing never fails a Create; a verdict obtained over HTTP is applied at once |
| Service.PaymentIntentService.ResolveNow | core-api/internal/application/payment_intent_service.go:158-169 | a verdict that cannot be applied leaves the Create a success |
| Service.PaymentIntentService.ApplyRiskResult | core-api/internal/application/payment_intent_service.go:206-236 | one read judged by the domain, then one transaction judged by the schema on whatever the row has become |
| Service.PaymentIntentService.UpdateStatus | core-api/internal/application/payment_intent_service.go:244-271 | not found, conflict and invalid transition from the read; otherwise the transaction's own outcome |
| Service.PaymentIntentService.List | core-api/internal/application/payment_intent_service.go:277-297 | a page of the rows with the status, each once, newest first, with out-of-range arguments replaced |
| Service.Paging | core-api/internal/application/payment_intent_service.go:278-286 | out-of-range pages become the first, out-of-range limits become 100 |
| Expiry.PageHolds | core-api/internal/infrastructure/postgres/payment_intent_repository.go:94-115 | a page holds the rows of the listing after those of the pages before it, as many as the limit unless the listing ends |
| Service.VerdictVisits | core-api/internal/application/payment_intent_service.go:158-169 | resolving over HTTP is the protocol's read and commit of the verdict; if it fails Create still succeeds |
| Publisher.Topic.WriteMessages | core-api/internal/infrastructure/kafka/producer.go:99-121 | success means at least one copy landed; failure says nothing |
| Publisher.RiskRequestPublisher.Publish | core-api/internal/infrastructure/kafka/producer.go:73-97 | one admission for the breaker and, if it lets the call through, one write tried and its outcome told; Kafka is the answer exactly when that write was acknowledged; nothing written when it is open; the HTTP path exactly when Kafka was not tried or failed and risk-service is reachable, and it returns the event's verdict |
| Publisher.CallsAreAnOutage | core-api/internal/infrastructure/kafka/producer.go:73-81 | a series of Publish calls that cannot write is an outage for the breaker, and its write attempts are the calls that got through |
| Publisher.OutageLimitsWrites | core-api/internal/infrastructure/kafka/producer.go:73-81 | with Kafka down, any number of Publish calls one at a time from any state of the breaker, attempts at most the threshold of writes plus one per whole reset period since it was first seen open |
| Breakers.BreakersStayRelated | reconciliation-worker/worker/infrastructure/resilience.py:48-78 | the lazy breaker and the eager one stay in step, apart from a half-open state only the lazy one has noticed |
| Breakers.BreakersAgree | core-api/internal/infrastructure/kafka/breaker.go:43-81 | with one outcome per admitted call and a clock that never goes back both admit and reject the same calls |
| Breakers.LateFailureSeparates | core-api/internal/infrastructure/kafka/breaker.go:60-74 | a failure reported late leaves them different exactly when a reset is due and the threshold is not reached |
| Breakers.ClosedCountsTheStreak | core-api/internal/infrastructure/kafka/breaker.go:53-74 | a closed breaker counts the failures since the last success |
| Breakers.OpensIff | core-api/internal/infrastructure/kafka/breaker.go:60-81 | it opens exactly at a failed probe, or at the failure that makes threshold of them with no success between |
| Breakers.SuccessForgets | reconciliation-worker/worker/infrastructure/resilience.py:61-63 | a success closes it from any state and forgets all failures |
| Breakers.ShutUntilReset | core-api/internal/infrastructure/kafka/breaker.go:43-51 | an open breaker lets nothing through before its reset is due, however often asked, and the first call after |
| Breakers.ConcurrentCallsDisagree | reconciliation-worker/worker/infrastructure/resilience.py:66-73 | a concrete overlapping trace on which the two judge a call differently |
| Breakers.ProbesAreUnlimited | core-api/internal/infrastructure/kafka/breaker.go:43-51 | once the reset is due any number of overlapping calls is let through |
| Breakers.OutageBound | core-api/internal/infrastructure/kafka/breaker.go:43-81 | during an outage with calls one at a time, beginning in any state of the breaker, the calls that get through are at most the threshold plus one per whole reset period since it was first seen open |
| Breakers.PaysOn | core-api/internal/infrastructure/kafka/breaker.go:43-81 | each event of an outage keeps the account that a call beyond the threshold has waited for a whole reset period |
| Breakers.GoBreaker.Allow | core-api/internal/infrastructure/kafka/breaker.go:43-51 | the admission step, with half-open entered here |
| Breakers.GoBreaker.OnFailure | core-api/internal/infrastructure/kafka/breaker.go:60-74 | a failed probe trips at once, other failures at the threshold |
| Breakers.PythonBreaker.ReadState | reconciliation-worker/worker/infrastructure/resilience.py:48-55 | reading the state may move it to half-open |
| Breakers.PythonBreaker.BeforeCall | reconciliation-worker/worker/infrastructure/resilience.py:57-59 | rejects exactly when still open after that look |
| Breakers.PythonBreaker.OnFailure | reconciliation-worker/worker/infrastructure/resilience.py:66-78 | looks first, then trips or counts |
| Locks.LockStays | core-api/internal/infrastructure/redis/locker.go:38-44 | until released with its own token or timed out, a lock stays with its holder whatever others try |
| Locks.HoldersAreATtlApart | core-api/internal/infrastructure/redis/locker.go:22-68 | two unreleased holders of one key took it at least 5 s apart |
| Locks.LockIsHeldFor | core-api/internal/infrastructure/redis/locker.go:22-44 | a lock is free again five seconds after it was taken or once its own token released it, and not before |
| Locks.IdempotencyLocker.AcquireLock | core-api/internal/infrastructure/redis/locker.go:46-58 | won exactly when the key was free and the reply came back |
| Locks.IdempotencyLocker.ReleaseLock | core-api/internal/infrastructure/redis/locker.go:34-68 | removes only the lock that still holds this token |
| ResultConsumer.BackoffWithJitter | core-api/internal/infrastructure/kafka/consumer.go:120-129 | a pause between zero and the ceiling, which never exceeds the cap, in int64 arithmetic |
| ResultConsumer.CeilingIsExact | core-api/internal/infrastructure/kafka/consumer.go:120-127 | for the configured base and cap neither clamp nor overflow shows, for any attempt |
| ResultConsumer.RiskResultConsumer.ConsumeUntilError | core-api/internal/infrastructure/kafka/consumer.go:84-110 | messages are handled in topic order, each exactly as what happened around its read has it, and only the last one read can be lost; it ends at the first failed read, with the process, or when stopped |
| ResultConsumer.RiskResultConsumer.Take | core-api/internal/infrastructure/kafka/consumer.go:86-108 | one read: without a commit nothing happens, without a usable reply the message is lost, else it is handled |
| ResultConsumer.RiskResultConsumer.HandleMessage | core-api/internal/infrastructure/kafka/consumer.go:91-108 | a malformed message is skipped, any other is applied once, and a database error ends there |
| ResultConsumer.RiskResultConsumer.Run | core-api/internal/infrastructure/kafka/consumer.go:63-79 | over a whole life with reconnections, each committed message has the fate its turn gives it, at most one per reader is lost on the way, none is handled twice, and a reader is opened only after a failed read |
| ResultConsumer.StoredIff | core-api/internal/infrastructure/kafka/consumer.go:84-110 | a committed message reaches the tables exactly when it is a verdict, its reply arrived, the process lived, the database answered read and transaction, and domain and schema accepted it; otherwise it changes nothing |
| ResultConsumer.OutageLosesVerdicts | core-api/internal/infrastructure/kafka/consumer.go:97-108 | any number of verdicts lost to a database outage with no read failing |
| ResultConsumer.LostReplyLosesAVerdict | core-api/internal/infrastructure/kafka/consumer.go:85-89 | one verdict lost with its reply or its process |
| ResultConsumer.AppliedVerdictLasts | core-api/internal/infrastructure/kafka/consumer.go:97-108 | a verdict applied with success leaves the status it asked for in the history, signed by risk-service, and in every later state the intent is there or further on |
| ResultConsumer.DrainedJoin | core-api/internal/infrastructure/kafka/consumer.go:63-79 | what one connection drained and what the next one drains is one drained stretch of the topic |
| Velocity.SlidingWindowVelocity.Prune | risk-service/app/infrastructure/velocity.py:45-60 | drops what left the window and keeps no merchant with nothing |
| Velocity.SlidingWindowVelocity.Count | risk-service/app/infrastructure/velocity.py:31-34 | the count is the number of distinct intents of the full log whose latest record is inside the window |
| Velocity.SlidingWindowVelocity.Record | risk-service/app/infrastructure/velocity.py:36-39 | logs the intent; a redelivery only moves its instant |
| Velocity.PruneShowsWindow | risk-service/app/infrastructure/velocity.py:45-60 | after pruning, the entries kept for a merchant are exactly the window of the unpruned log |
| Velocity.WindowAfterRecord | risk-service/app/infrastructure/velocity.py:36-60 | the last record of an intent decides whether it counts, while it is younger than the window |
| Velocity.RecordKeeps | risk-service/app/infrastructure/velocity.py:36-39 | recording keeps the map faithful to the log |
| Velocity.AtMostLimitPlusOneEscape | risk-service/app/application/evaluate.py:20-58 | counting locally and one at a time, at most limit + 1 first deliveries of a merchant in any window go unstopped by the velocity rule |
| Velocity.SelfCountedIff | risk-service/app/application/evaluate.py:21-25 | a delivery counts its own intent exactly when an earlier delivery of it was recorded inside the window |
| RiskService.EvaluateRisk.Call | risk-service/app/application/evaluate.py:20-58 | counts, then records, then judges; the count sent by core-api wins over the local one |
| RiskService.AtMostLimitPlusOneSurvive | risk-service/app/domain/rules.py:69-71 | hence at most limit + 1 first deliveries in any window are not rejected |
| RiskService.RedeliveryCanFlip | risk-service/app/infrastructure/kafka_consumer.py:75-78 | a concrete redelivery that turns an approval into a rejection |
| RiskService.AnswerIsUnique | risk-service/app/application/evaluate.py:43-58 | with core-api's count in the event the one possible answer is the evaluation with that count |
| RiskService.OneAnswerIff | risk-service/app/infrastructure/kafka_consumer.py:75-78 | a request is answered alike however often it is evaluated exactly when core-api's count is in the event, the merchant is blocked, the reference is suspicious, or the velocity limit is negative |
| RiskService.RiskEventWorker.Handle | risk-service/app/infrastructure/kafka_consumer.py:134-189 | a malformed message leaves no trace; a request is recorded once, published at most once with the verdict of its window, and has a result in the completed topic whenever the call returns normally |
| RiskService.RiskEventWorker.Run | risk-service/app/infrastructure/kafka_consumer.py:124-132 | dying anywhere, with commits lost, every well-formed request below the committed offset has a result and every result answers a request |
| RiskService.StillAnswered | risk-service/app/infrastructure/kafka_consumer.py:72-79 | an answered prefix stays answered while both topics grow |
| Expiry.FilterExpired | reconciliation-worker/worker/domain/expiry.py:57-62 | keeps exactly the expired views |
| Expiry.ExpiryFollowsIdentity | reconciliation-worker/worker/domain/expiry.py:36-54 | whether an open intent is expired never depends on what an UPDATE can change |
| Expiry.NeverASecondEarly | core-api/internal/transport/http/payment_intent_handler.go:67 | judged on truncated instants, with or without the demo override, an intent is never missed and never taken a whole second early |
| Expiry.OnlyOpenExpire | reconciliation-worker/worker/domain/expiry.py:48-49 | only an open intent is ever taken for expired |
| Expiry.PageIsCompleteIff | core-api/internal/infrastructure/postgres/payment_intent_repository.go:94-115 | page 1 misses nothing exactly when the status holds no more intents than the limit, and its length is the smaller of the two |
| Expiry.NewestFirst | core-api/internal/infrastructure/postgres/payment_intent_repository.go:99-114 | every row with the status exactly once, newest first |
| CoreClient.PatchAnswers | core-api/internal/transport/http/errors.go:27-48 | what each final status code of a PATCH to EXPIRED says of the row: 200 signed and EXPIRED, 409 EXPIRED, 422 another terminal status, 404 no such intent |
| CoreClient.RefusedAtRead | core-api/internal/application/payment_intent_service.go:244-257 | the refusals before the transaction, each with what it says of the id and the row |
| CoreClient.NoConflictOnUpdate | core-api/internal/infrastructure/postgres/payment_intent_repository.go:74-92 | a failed UPDATE reports an internal error or a missing row, so 409 only ever means "already there" |
| CoreClient.DomainAnswersEndIff | core-api/internal/transport/http/errors.go:27-48 | the status code of every error, and that the client tries again only the internal one |
| CoreClient.TriedAgainIff | reconciliation-worker/worker/infrastructure/core_client.py:28-29 | exactly five codes are tried again as failures, and 401 with a new login |
| CoreClient.NothingAfterAnAnswer | reconciliation-worker/worker/infrastructure/core_client.py:139-146 | after any other reply nothing more is sent and it is the answer, read as 200, 409, 422 and 404 or 405 each its own way |
| CoreClient.CeilingDoubles | reconciliation-worker/worker/infrastructure/resilience.py:81-88 | the ceiling starts at the base and doubles until it stays at the cap |
| CoreClient.BackoffAddsUp | reconciliation-worker/worker/infrastructure/resilience.py:81-88 | after n pauses the total stays within n caps and within base times 2 to the n minus 1 |
| CoreClient.CoreClient.Request | reconciliation-worker/worker/infrastructure/core_client.py:93-153 | at most max_retries + 1 requests; returns only a reply that is neither 401 nor retryable, which is the reply to the last request sent and the core's own; gives up only when turned away by the breaker or after the last pass; sleeps once between passes, in total within both bounds |
| CoreClient.CoreClient.Turn | reconciliation-worker/worker/infrastructure/core_client.py:111-150 | one turn of the loop ends it, or leaves it going with a pause unless it was the last |
| CoreClient.UnansweredIff | reconciliation-worker/worker/infrastructure/core_client.py:111-153 | a request has no answer exactly when its last pass was turned away or all of its passes asked to try again |
| CoreClient.OutageGoesOn | reconciliation-worker/worker/infrastructure/core_client.py:129-148 | a request with neither a 401 nor a final reply keeps an outage an outage |
| CoreClient.CoreClient.Attempt | reconciliation-worker/worker/infrastructure/core_client.py:111-148 | one pass: one admission, at most one request, none with the circuit open, and one entry in the log; a final reply is the core's own |
| CoreClient.CoreClient.Conclude | reconciliation-worker/worker/infrastructure/core_client.py:129-148 | network errors and retryable codes count as failures, a 401 only clears the token, anything else is success and final |
| CoreClient.CoreClient.Authenticate | reconciliation-worker/worker/infrastructure/core_client.py:86-89 | a token already held is kept and used; otherwise whether one is held afterwards says whether the login worked |
| CoreClient.CoreClient.OutageLimitsSends | reconciliation-worker/worker/infrastructure/core_client.py:111-153 | over any stretch of passes that all failed, whatever came before it and however many cycles it spans, the requests sent are at most the breaker's threshold plus one per whole reset period since the breaker was first seen open in it |
| CoreClient.FailingStretch | reconciliation-worker/worker/infrastructure/core_client.py:111-153 | a stretch of failing passes is an outage for the breaker it found, and what it sent is at most what the breaker let through |
| CoreClient.CoreClient.ListByStatus | reconciliation-worker/worker/infrastructure/core_client.py:157-177 | a successful listing is page 1 of a state during the call; no answer means that the retry loop got none |
| CoreClient.CoreClient.ExpireIntent | reconciliation-worker/worker/infrastructure/core_client.py:179-205 | success and "already there" leave the intent EXPIRED, success with the worker's history row; a rejection means another terminal status |
| CoreClient.CoreClient.Jitter | reconciliation-worker/worker/infrastructure/resilience.py:81-88 | full jitter below the ceiling |
| Reconcile.ListingCatches | reconciliation-worker/worker/application/reconcile.py:127-129 | one listing holds every due intent with its status if the page is large enough, and none that is not due within a second |
| Reconcile.NobodySlipsBetween | reconciliation-worker/worker/application/reconcile.py:121-130 | listing PENDING before UNDER_REVIEW loses no intent that moves in between |
| Reconcile.BothListings | reconciliation-worker/worker/application/reconcile.py:121-130 | together the two listings catch every intent due at the start or it is closed by itself |
| Reconcile.TalliesAddUp | reconciliation-worker/worker/application/reconcile.py:74-119 | every outcome is counted by one counter |
| Reconcile.OneMoreAsked | reconciliation-worker/worker/application/reconcile.py:77-109 | one more candidate asked for moves only the counter of its outcome, keeps what earlier outcomes say, and with no failure so far leaves every candidate asked for terminal |
| Reconcile.OutcomesStay | reconciliation-worker/worker/application/reconcile.py:77-109 | what an outcome says of its intent stays true for good |
| Reconcile.ReconcileExpired.Collect | reconciliation-worker/worker/application/reconcile.py:121-130 | exactly two list requests, PENDING first, of states in that order; the candidates are their pages filtered; an unanswered one ends it |
| Reconcile.ReconcileExpired.ExpireAll | reconciliation-worker/worker/application/reconcile.py:74-119 | one PATCH loop for each candidate in turn and nothing else in the log, stopping only at a missing endpoint; every counter counts the replies of its kind |
| Reconcile.ReconcileExpired.Run | reconciliation-worker/worker/application/reconcile.py:62-130 | the client's log grows by exactly the cycle's list requests and PATCHes, and the report is their tally |
| Reconcile.ReconcileExpired.Call | reconciliation-worker/worker/application/reconcile.py:58-130 | a cycle with every request answered and pages large enough leaves each intent that was open and due at its start terminal; found is the sum of the four counters; no PATCH asks to expire an intent a whole second early; any stretch of failures stays within the breaker's bound, the PATCHes of a cycle that did list among them; a cycle with nothing but failures reports nothing |
| Reconcile.CycleClosesTheDue | reconciliation-worker/worker/application/reconcile.py:62-130 | of any cycle: all answered and pages large enough, whoever was open and due at the start ends terminal |
| Reconcile.NobodyExpiredEarly | reconciliation-worker/worker/application/reconcile.py:77-79 | of any cycle: every PATCH it sends is for a stored intent and none a whole second before it is due |
| Reconcile.CycleAccounts | reconciliation-worker/worker/application/reconcile.py:112-119 | of any cycle without a missing endpoint: found is the sum of the four counters |
| Reconcile.ShortPagesSuffice | reconciliation-worker/worker/application/reconcile.py:127-129 | if neither page is full both listings were complete |
| Reconcile.OutageAborts | reconciliation-worker/worker/application/reconcile.py:63-70 | while nothing but failures comes back, a cycle lists nothing and asks for nothing |
| Ticks.TicksRoundTrip | reconciliation-worker/worker/ticks.py:34-47 | the worker reads back what the scheduler sent, unless the interval is zero: then it discards it |
| Ticks.SameIdIffSameWindow | reconciliation-scheduler/scheduler/tick.py:34-44 | two ticks share an id exactly when they were fired in the same window |
| Ticks.FreshWindowsAreServed | reconciliation-worker/worker/consumer.py:67-88 | only fresh ticks start cycles, and each fresh window gets one unless it was the last one served |
| Ticks.EachWindowOnce | reconciliation-worker/worker/consumer.py:81-88 | with windows in order no window starts two cycles |
| Ticks.ThreeWindows | reconciliation-worker/worker/ticks.py:50-55 | a fresh tick fired by the resume instant is in its window or one of the two before |
| Ticks.AtMostThreeCycles | reconciliation-worker/worker/consumer.py:67-88 | however many ticks are queued and whoever fired them, at most three start a cycle |
| Ticks.ThreeIsReached | reconciliation-worker/worker/ticks.py:50-55 | three is attained |
| Ticks.AlternatingWindowsAllStart | reconciliation-worker/worker/consumer.py:81-88 | four ticks of two windows that alternate start four cycles |
| Ticks.WindowRepeatsIff | reconciliation-worker/worker/consumer.py:81-88 | for a worker just started, some window starts two cycles exactly when a fresh tick of another window arrives between two fresh ticks of its own |
| Ticks.TickConsumer.Handle | reconciliation-worker/worker/consumer.py:67-88 | malformed, stale and repeated ticks send nothing and touch nothing; any other sets the last id and runs a cycle whose requests are exactly what is sent |
| Ticks.TickConsumer.Run | reconciliation-worker/worker/consumer.py:61-65 | the cycles run over a queue are those of the specification, one after the other, and their requests all that is sent; at most three for a backlog; any stretch of failures, within a cycle or across many, stays within the breaker's bound |
| Ticks.CyclesOnlyAdvance | reconciliation-worker/worker/consumer.py:61-65 | whatever cycles ran, the tables only moved forward |

## Left out

- HTTP routing, request bodies, JWT, login, roles, health and Swagger endpoints, metrics and logging: no property beyond the status codes; the worker's token is a flag that a 401 clears.
- The merchant service: merchants are a fixed map from id to status.
- Client libraries for Kafka, PostgreSQL, Redis and HTTP: logs, atomic transactions, a map with expiry and a request that may be lost; partitions and rebalances are not distinguished.
- JSON and timestamp parsing: messages are malformed or carry their fields. A tick or a risk request whose JSON is not an object makes the parser raise an exception its handler does not catch; those messages are not modelled.
- UUIDs are compared as spelled, while PostgreSQL would take two spellings of one UUID for the same.
- What other calls put on the request topic while a Create runs: its log is what this one call wrote.
- Database errors of `List` and of the reads that only serve the HTTP API: a list request may be answered with an error of any kind instead.
- Roles and GRANTs: nobody deletes rows or edits history in the model; the append-only trigger is that `Stmt` has no such statement.
- History row ids and their creation instant: the application sets the instant, although the schema's comment says the database does; rows are ordered by commit instead.
- The total count and the merchant filter of `List`, and rows with equal creation instants, whose order the query leaves open.
- Float rounding in the amount component of the score: exact integer division, truncated as Python does.
- Stripping and upper-casing beyond ASCII in references, prefixes and merchant statuses.
- Scheduling: the delay before the second idempotency lookup, the sleeps themselves and the thread of a cycle; only the bound on the total sleep is stated.
- Exceptions other than the three the worker's client raises, such as a 403 on a listing: the core's answers are those of `handleError`.
- The cycle report is not required to be complete when a tick's cycle raises: the worker then stops, and its next life starts without a last tick id.
- RiskRules.ScoreTellsDecision: amounts of zero or less, which core-api never sends, only keep the [0, 100] range.
- Runs.PublishedOnceAfterReview: a Publish that never happens, because the process died after its UNDER_REVIEW commit, is possible; the intent then waits for its expiry.
- Protocol.StepKeeps: safety only; that a verdict is eventually applied is not claimed, since a lost verdict is never read again.
